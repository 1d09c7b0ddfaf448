/** The task builders: every scenario, for every index, as a concrete fixture. */
module Builders {
  import opened Wrappers
  import opened Text
  import opened JsonValues
  import opened Frozen
  import opened BaseCatalog

  const RECIPIENT := "analyst@example.org"

  // ---- Identifiers --------------------------------------------------------------------

  function Digits(n: nat): string {
    if n < 10 then [DigitChar(n)] else Digits(n / 10) + [DigitChar(n % 10)]
  }

  function DigitChar(d: nat): char
    requires d < 10
  {
    ('0' as int + d) as char
  }

  function Zeros(k: nat): string {
    seq(k, _ => '0')
  }

  /** Decimal, zero-padded to at least four digits. */
  function Pad4(n: nat): string {
    var d := Digits(n);
    if |d| < 4 then Zeros(4 - |d|) + d else d
  }

  // ---- Rules and steps ------------------------------------------------------------------

  function Equals(v: Json): Rule {
    Rule(Some(v), false, None, None)
  }

  const ANY_TEXT := Rule(None, true, None, None)

  function FromState(key: string): Rule {
    Rule(None, false, Some(key), None)
  }

  function Mentions(key: string): Rule {
    Rule(None, false, None, Some(key))
  }

  function MakeStep(op: Op, rules: map<string, Rule>, observation: Object, failOnce: string): Step {
    Step(Route(op), Some(rules), observation, failOnce, [], [], map[])
  }

  const OK: Json := Str("ok")

  function FaultText(failOnce: bool): string {
    if failOnce then "transient_backend" else ""
  }

  // ---- Scenarios --------------------------------------------------------------------------

  predicate IsDirect(op: Op) {
    op in {MaterialsCurrent, MaterialsHistory, MaterialsForecast, PapersRetrieve, PapersSummarize,
           InventoryUpdate, InventoryDelete, RuntimeRestart}
  }

  type DirectOp = op: Op | IsDirect(op) witness MaterialsCurrent

  datatype Scenario =
    | MaterialSearchCurrent | PaperSearchRetrieve | PaperSearchRetrieveSummary
    | MaterialSearchRetrieveExport | MaterialRetrieveExport | CreditCreateShare | InventoryCreateSend
    | CurrentHistory | CurrentForecast | Direct(op: DirectOp)

  function Id(prefix: string, index: nat): string {
    prefix + Pad4(index)
  }

  function ValueOf(base: real, index: nat, period: nat): real
    requires period > 0
  {
    base + (index % period) as real
  }

  /** The key a direct call names its target with. */
  function DirectKey(op: DirectOp): string {
    match op
    case PapersRetrieve => "paper_id"
    case PapersSummarize => "paper_id"
    case InventoryUpdate => "item_id"
    case InventoryDelete => "item_id"
    case RuntimeRestart => "runtime_id"
    case _ => "material_id"
  }

  function DirectTarget(op: DirectOp, index: nat): string {
    match op
    case PapersRetrieve => Id("P-H", index)
    case PapersSummarize => Id("P-H", index)
    case InventoryUpdate => Id("INV-H", index)
    case InventoryDelete => Id("INV-H", index)
    case RuntimeRestart => Id("RT-H", index)
    case _ => Id("MAT-H", index)
  }

  function DirectObservation(op: DirectOp, index: nat): Object {
    var target := Str(DirectTarget(op, index));
    match op
    case MaterialsCurrent =>
      map["status" := OK, "youngs_modulus" := Num(ValueOf(120.0, index, 17)), "unit" := Str("GPa")]
    case MaterialsHistory =>
      map["status" := OK, "youngs_modulus" := Arr([Num(118.0), Num(119.0), Num(120.0)]), "unit" := Str("GPa")]
    case MaterialsForecast =>
      map["status" := OK, "youngs_modulus" := Arr([Num(121.0), Num(122.0)]), "unit" := Str("GPa")]
    case PapersRetrieve =>
      map["status" := OK, "paper_id" := target,
          "paper_text" := Str("Independent paper evidence " + Digits(index) + ".")]
    case PapersSummarize =>
      map["status" := OK, "summary" := Str("Independent summary evidence " + Digits(index) + ".")]
    case InventoryUpdate => map["status" := OK, "item_id" := target]
    case InventoryDelete => map["status" := OK, "deleted_item_id" := target]
    case RuntimeRestart => map["status" := OK, "runtime_id" := target, "state" := Str("running")]
  }

  function MaterialSearch(index: nat, formula: string, fault: string): Step {
    MakeStep(MaterialsSearch, map["query" := ANY_TEXT],
      map["status" := OK, "material_id" := Str(Id("MAT-SEARCH-H", index)), "formula" := Str(formula)], fault)
  }

  function PaperSearch(index: nat, fault: string): Step {
    MakeStep(PapersSearch, map["query" := ANY_TEXT],
      map["status" := OK, "paper_id" := Str(Id("P-SEARCH-H", index)), "title" := Str("Paper " + Digits(index))], fault)
  }

  function PaperRetrieve(index: nat, text: string, fault: string): Step {
    MakeStep(PapersRetrieve, map["paper_id" := FromState("paper_id")],
      map["status" := OK, "paper_id" := Str(Id("P-SEARCH-H", index)), "paper_text" := Str(text)], fault)
  }

  function PaperSummary(index: nat): Step {
    MakeStep(PapersSummarize, map["paper_id" := FromState("paper_id")],
      map["status" := OK, "summary" := Str("Independent summary " + Digits(index) + ".")], "")
  }

  /** The record behind a material identifier, with the artifact it produced. */
  function MaterialRecord(rule: Rule, material: string, formula: string, index: nat, fault: string): Step {
    MakeStep(MaterialsRetrieve, map["material_id" := rule],
      map["status" := OK, "material_id" := Str(material), "formula" := Str(formula),
          "artifact_id" := Str(Id("ART-MAT-H", index))], fault)
  }

  function Export(artifact: string, fault: string): Step {
    MakeStep(ExportsExport, map["artifact_id" := FromState("artifact_id")],
      map["status" := OK, "file_uri" := Str("file:///tmp/" + artifact + ".json")], fault)
  }

  function ModulusOf(rule: Rule, value: real, fault: string): Step {
    MakeStep(MaterialsCurrent, map["material_id" := rule],
      map["status" := OK, "youngs_modulus" := Num(value), "unit" := Str("GPa")], fault)
  }

  function SeriesOf(op: Op, index: nat, series: seq<Json>): Step {
    MakeStep(op, map["material_id" := Equals(Str(Id("MAT-H", index)))],
      map["status" := OK, "youngs_modulus" := Arr(series), "unit" := Str("GPa")], "")
  }

  function CreditRequest(index: nat, fault: string): Step {
    MakeStep(CreditsCreate, map["amount" := Equals(Int(100 + index % 37))],
      map["status" := OK, "credit_id" := Str(Id("CR-NEW-H", index)),
          "artifact_id" := Str(Id("ART-CREDIT-H", index))], fault)
  }

  function Share(index: nat): Step {
    MakeStep(MessagingShare,
      map["artifact_id" := FromState("artifact_id"), "recipient" := Equals(Str(RECIPIENT))],
      map["status" := OK, "share_id" := Str(Id("SHARE-H", index))], "")
  }

  function NewItem(index: nat, fault: string): Step {
    MakeStep(InventoryCreate, map["item_name" := Equals(Str(Id("sample-holder-", index)))],
      map["status" := OK, "item_id" := Str(Id("INV-NEW-H", index))], fault)
  }

  function SendMessage(rule: Rule, messageId: string): Step {
    MakeStep(MessagingSend, map["recipient" := Equals(Str(RECIPIENT)), "message" := rule],
      map["status" := OK, "message_id" := Str(messageId)], "")
  }

  function DirectStep(op: DirectOp, index: nat, fault: string): Step {
    MakeStep(op, map[DirectKey(op) := Equals(Str(DirectTarget(op, index)))], DirectObservation(op, index), fault)
  }

  function SearchThenCurrent(index: nat, fault: string): seq<Step> {
    [MaterialSearch(index, "X" + Digits(index) + "Y", fault),
     ModulusOf(FromState("material_id"), ValueOf(110.0, index, 41), "")]
  }

  function SearchThenRetrieve(index: nat, fault: string): seq<Step> {
    [PaperSearch(index, fault),
     PaperRetrieve(index, "Independent deterministic evidence " + Digits(index) + ".", "")]
  }

  function SearchRetrieveSummarize(index: nat, fault: string): seq<Step> {
    [PaperSearch(index, ""),
     PaperRetrieve(index, "Independent deterministic paper content " + Digits(index) + ".", fault),
     PaperSummary(index)]
  }

  function SearchRetrieveExport(index: nat, fault: string): seq<Step> {
    var formula := "M" + Digits(index) + "N";
    [MaterialSearch(index, formula, ""),
     MaterialRecord(FromState("material_id"), Id("MAT-SEARCH-H", index), formula, index, ""),
     Export(Id("ART-MAT-H", index), fault)]
  }

  function RetrieveThenExport(index: nat, fault: string): seq<Step> {
    var material := Id("MAT-H", index);
    [MaterialRecord(Equals(Str(material)), material, "Q" + Digits(index) + "R", index, fault),
     Export(Id("ART-MAT-H", index), "")]
  }

  function CurrentThenSeries(op: Op, index: nat, series: seq<Json>, fault: string): seq<Step> {
    [ModulusOf(Equals(Str(Id("MAT-H", index))), ValueOf(115.0, index, 31), fault), SeriesOf(op, index, series)]
  }

  function History(index: nat): seq<Json> {
    var first := ValueOf(115.0, index, 31);
    [Num(first - 2.0), Num(first - 1.0), Num(first)]
  }

  function Forecast(index: nat): seq<Json> {
    var first := ValueOf(115.0, index, 31);
    [Num(first + 1.0), Num(first + 2.0)]
  }

  /** The fixture steps of a scenario. The scripted fault sits on the step the scenario
      chooses. */
  function ScenarioSteps(scenario: Scenario, index: nat, failOnce: bool): seq<Step> {
    var fault := FaultText(failOnce);
    match scenario
    case MaterialSearchCurrent => SearchThenCurrent(index, fault)
    case PaperSearchRetrieve => SearchThenRetrieve(index, fault)
    case PaperSearchRetrieveSummary => SearchRetrieveSummarize(index, fault)
    case MaterialSearchRetrieveExport => SearchRetrieveExport(index, fault)
    case MaterialRetrieveExport => RetrieveThenExport(index, fault)
    case CreditCreateShare => [CreditRequest(index, fault), Share(index)]
    case InventoryCreateSend => [NewItem(index, fault), SendMessage(Mentions("item_id"), Id("MSG-H", index))]
    case CurrentHistory => CurrentThenSeries(MaterialsHistory, index, History(index), fault)
    case CurrentForecast => CurrentThenSeries(MaterialsForecast, index, Forecast(index), fault)
    case Direct(op) => [DirectStep(op, index, fault)]
  }

  // ---- The three corpora --------------------------------------------------------------------

  datatype CorrectiveStratum =
    | TwoStepStateDependency | ThreeStepStateDependency | RecoverableFailure
    | ProvenancePropagation | TypedUnitTransition

  function CorrectiveScenarios(stratum: CorrectiveStratum): (list: seq<Scenario>)
    ensures list != []
  {
    match stratum
    case TwoStepStateDependency => [
      MaterialSearchCurrent, PaperSearchRetrieve, CreditCreateShare, InventoryCreateSend,
      MaterialRetrieveExport, CurrentHistory]
    case ThreeStepStateDependency => [PaperSearchRetrieveSummary, MaterialSearchRetrieveExport]
    case RecoverableFailure => [
      MaterialSearchCurrent, PaperSearchRetrieveSummary, MaterialRetrieveExport, CreditCreateShare,
      InventoryCreateSend, CurrentForecast]
    case ProvenancePropagation => [MaterialRetrieveExport, CreditCreateShare, InventoryCreateSend]
    case TypedUnitTransition => [CurrentHistory, CurrentForecast]
  }

  datatype HeldoutStratum =
    | SingleToolExact | TwoStepDependent | ThreeStepDependent | SiblingAmbiguity | TypedNumericUnits
    | HeldoutProvenance | ReadVsWrite | DestructiveVsNot | HeldoutFailure | AdjacentDistractors
    | InsufficientInformation | MissingCapability | OutOfDomain

  /** Empty for the three unsupported strata. */
  function HeldoutScenarios(stratum: HeldoutStratum): seq<Scenario> {
    match stratum
    case SingleToolExact => [
      Direct(MaterialsCurrent), Direct(PapersRetrieve), Direct(InventoryUpdate), Direct(RuntimeRestart)]
    case TwoStepDependent => [
      MaterialSearchCurrent, PaperSearchRetrieve, CreditCreateShare, InventoryCreateSend]
    case ThreeStepDependent => [PaperSearchRetrieveSummary, MaterialSearchRetrieveExport]
    case SiblingAmbiguity => [
      Direct(MaterialsCurrent), Direct(MaterialsHistory), Direct(MaterialsForecast),
      Direct(PapersRetrieve), Direct(PapersSummarize)]
    case TypedNumericUnits => [
      Direct(MaterialsCurrent), Direct(MaterialsHistory), Direct(MaterialsForecast),
      CurrentHistory, CurrentForecast]
    case HeldoutProvenance => [MaterialRetrieveExport, CreditCreateShare, InventoryCreateSend]
    case ReadVsWrite => [Direct(InventoryUpdate), Direct(MaterialsCurrent), Direct(RuntimeRestart)]
    case DestructiveVsNot => [Direct(InventoryUpdate), Direct(InventoryDelete)]
    case HeldoutFailure => [
      MaterialSearchCurrent, PaperSearchRetrieveSummary, MaterialRetrieveExport, CreditCreateShare,
      InventoryCreateSend]
    case AdjacentDistractors => [
      Direct(MaterialsForecast), Direct(PapersSummarize), MaterialSearchCurrent, PaperSearchRetrieve]
    case InsufficientInformation => []
    case MissingCapability => []
    case OutOfDomain => []
  }

  function Supported(query: string, steps: seq<Step>): Task {
    Task(query, Dedup(StepRoutes(steps)), true, steps)
  }

  /** Slots are numbered from 1; the scenario list is used round-robin. */
  function BuildCorrective(stratum: CorrectiveStratum, ordinal: int, index: nat, query: string): Task {
    var list := CorrectiveScenarios(stratum);
    Supported(query, ScenarioSteps(list[(ordinal - 1) % |list|], index, stratum.RecoverableFailure?))
  }

  function BuildHeldout(stratum: HeldoutStratum, ordinal: int, index: nat, query: string): Task {
    var list := HeldoutScenarios(stratum);
    if list == [] then Task(query, [], false, [])
    else Supported(query, ScenarioSteps(list[(ordinal - 1) % |list|], index, stratum.HeldoutFailure?))
  }

  datatype FinalStratum =
    | SingleProperty | LiteratureFact | MultiSource | TransformOrExport | CorrectiveExpansion | Contradiction

  /** A final-answer observation carries the source it came from. */
  function Sourced(observation: Object, source: Json): Object {
    observation["source_id" := source]
  }

  function FinalRecord(index: nat, source: Json): Step {
    MakeStep(MaterialsRetrieve, map["material_id" := Equals(Str(Id("MAT-H", index)))],
      Sourced(map["status" := OK, "material_id" := Str(Id("MAT-H", index)),
                  "artifact_id" := Str(Id("ART-F", index))], source), "")
  }

  function FinalFile(index: nat, source: Json): Step {
    MakeStep(ExportsExport, map["artifact_id" := FromState("artifact_id")],
      Sourced(map["status" := OK, "file_uri" := Str("file:///tmp/" + Id("ART-F", index) + ".json")], source), "")
  }

  function FinalPaper(index: nat, source: Json): Step {
    MakeStep(PapersRetrieve, map["paper_id" := Equals(Str(Id("P-H", index)))],
      Sourced(map["status" := OK, "paper_id" := Str(Id("P-H", index)),
                  "paper_text" := Str("Frozen literature fact " + Digits(index) + ": stability index "
                                      + Digits(index % 97) + ".")], source), "")
  }

  function FinalValue(op: Op, index: nat, key: string, value: Json, source: Json): Step {
    MakeStep(op, map["material_id" := Equals(Str(Id("MAT-H", index)))],
      Sourced(map["status" := OK, key := value, "unit" := Str("GPa")], source), "")
  }

  function Noted(step: Step): Step {
    step.(observation := step.observation["distractor_note" :=
      Str("The historical value is not the requested forecast.")])
  }

  function Restart(index: nat): Step {
    MakeStep(RuntimeRestart, map["runtime_id" := Equals(Str(Id("RT-H", index)))],
      map["status" := OK, "runtime_id" := Str(Id("RT-H", index)), "state" := Str("running")], "")
  }

  function FinalSteps(stratum: FinalStratum, index: nat): seq<Step> {
    var a, b := Str(Id("SRC-F", index) + "-A"), Str(Id("SRC-F", index) + "-B");
    match stratum
    case SingleProperty => [
      FinalValue(MaterialsCurrent, index, "youngs_modulus", Num(ValueOf(130.0, index, 23)), a)]
    case LiteratureFact => [FinalPaper(index, a)]
    case MultiSource =>
      var current := ValueOf(120.0, index, 19);
      [FinalValue(MaterialsCurrent, index, "current_youngs_modulus", Num(current), a),
       FinalValue(MaterialsHistory, index, "historical_youngs_modulus",
                  Arr([Num(current - 2.0), Num(current - 1.0), Num(current)]), b)]
    case TransformOrExport => [FinalRecord(index, a), FinalFile(index, b)]
    case CorrectiveExpansion => [
      FinalRecord(index, a), FinalFile(index, b), Restart(index), SendMessage(ANY_TEXT, Id("MSG-F", index))]
    case Contradiction =>
      var first := ValueOf(140.0, index, 11);
      [Noted(FinalValue(MaterialsForecast, index, "forecast_youngs_modulus",
                        Arr([Num(first), Num(first + 1.0)]), a))]
  }

  function BuildFinal(stratum: FinalStratum, index: nat, query: string): Task {
    Supported(query, FinalSteps(stratum, index))
  }
}
