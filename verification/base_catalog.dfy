/** The twenty canonical operations every benchmark catalog starts with. */
module BaseCatalog {
  import opened Wrappers
  import opened Registry

  datatype Op =
    | PapersSearch | PapersRetrieve | PapersSummarize
    | MaterialsSearch | MaterialsRetrieve | MaterialsCurrent | MaterialsHistory | MaterialsForecast
    | InventoryList | InventoryCreate | InventoryUpdate | InventoryDelete
    | MessagingSend | MessagingShare
    | CreditsCreate | CreditsCancel | CreditsRefund
    | RuntimeRestart | RuntimeExecute
    | ExportsExport

  function ToolIndex(op: Op): nat {
    match op
    case PapersSearch => 0 case PapersRetrieve => 0 case PapersSummarize => 0
    case MaterialsSearch => 1 case MaterialsRetrieve => 1 case MaterialsCurrent => 1
    case MaterialsHistory => 1 case MaterialsForecast => 1
    case InventoryList => 2 case InventoryCreate => 2 case InventoryUpdate => 2 case InventoryDelete => 2
    case MessagingSend => 3 case MessagingShare => 3
    case CreditsCreate => 4 case CreditsCancel => 4 case CreditsRefund => 4
    case RuntimeRestart => 5 case RuntimeExecute => 5
    case ExportsExport => 6
  }

  function EndpointIndex(op: Op): nat {
    match op
    case PapersSearch => 0 case PapersRetrieve => 1 case PapersSummarize => 2
    case MaterialsSearch => 0 case MaterialsRetrieve => 1 case MaterialsCurrent => 2
    case MaterialsHistory => 3 case MaterialsForecast => 4
    case InventoryList => 0 case InventoryCreate => 1 case InventoryUpdate => 2 case InventoryDelete => 3
    case MessagingSend => 0 case MessagingShare => 1
    case CreditsCreate => 0 case CreditsCancel => 1 case CreditsRefund => 2
    case RuntimeRestart => 0 case RuntimeExecute => 1
    case ExportsExport => 0
  }

  const TOOL_KEYS := ["papers", "materials", "inventory", "messaging", "credits", "runtime", "exports"]

  function ToolKey(op: Op): string {
    TOOL_KEYS[ToolIndex(op)]
  }

  function OpName(op: Op): string {
    match op
    case PapersSearch => "search" case PapersRetrieve => "retrieve" case PapersSummarize => "summarize"
    case MaterialsSearch => "search" case MaterialsRetrieve => "retrieve" case MaterialsCurrent => "current"
    case MaterialsHistory => "history" case MaterialsForecast => "forecast"
    case InventoryList => "list" case InventoryCreate => "create" case InventoryUpdate => "update"
    case InventoryDelete => "delete"
    case MessagingSend => "send" case MessagingShare => "share"
    case CreditsCreate => "create" case CreditsCancel => "cancel" case CreditsRefund => "refund"
    case RuntimeRestart => "restart" case RuntimeExecute => "execute"
    case ExportsExport => "export"
  }

  function Route(op: Op): string {
    ToolKey(op) + "." + OpName(op)
  }

  function Text1(name: string): seq<Parameter> {
    [Parameter(name, true, One("string"))]
  }

  function Text2(a: string, b: string): seq<Parameter> {
    [Parameter(a, true, One("string")), Parameter(b, true, One("string"))]
  }

  function Parameters(op: Op): seq<Parameter> {
    match op
    case PapersSearch => Text1("query")
    case PapersRetrieve => Text1("paper_id")
    case PapersSummarize => Text1("paper_id")
    case MaterialsSearch => Text1("query")
    case MaterialsRetrieve => Text1("material_id")
    case MaterialsCurrent => Text1("material_id")
    case MaterialsHistory => Text1("material_id")
    case MaterialsForecast => Text1("material_id")
    case InventoryList => []
    case InventoryCreate => Text1("item_name")
    case InventoryUpdate => Text1("item_id")
    case InventoryDelete => Text1("item_id")
    case MessagingSend => Text2("recipient", "message")
    case MessagingShare => Text2("artifact_id", "recipient")
    case CreditsCreate => [Parameter("amount", true, One("number"))]
    case CreditsCancel => Text1("credit_id")
    case CreditsRefund => Text1("credit_id")
    case RuntimeRestart => Text1("runtime_id")
    case RuntimeExecute => Text2("runtime_id", "operation")
    case ExportsExport => Text1("artifact_id")
  }

  function Field(name: string, semanticId: string): FieldSpec {
    FieldSpec(name, Some(semanticId), None, None, map[], false)
  }

  function ModulusField(): FieldSpec {
    FieldSpec("youngs_modulus", Some("material.youngs_modulus"), Some("GPa"), Some("elastic_modulus"), map[], false)
  }

  function Outputs(op: Op): seq<FieldSpec> {
    match op
    case PapersSearch => [Field("paper_id", "paper.id")]
    case PapersRetrieve => [Field("paper_text", "paper.text")]
    case PapersSummarize => [Field("summary", "paper.summary")]
    case MaterialsSearch => [Field("material_id", "material.id")]
    case MaterialsRetrieve => [Field("formula", "material.formula"), Field("artifact_id", "artifact.id")]
    case MaterialsCurrent => [ModulusField()]
    case MaterialsHistory => [ModulusField()]
    case MaterialsForecast => [ModulusField()]
    case InventoryList => [Field("item_id", "inventory.item_id")]
    case InventoryCreate => [Field("item_id", "inventory.item_id")]
    case InventoryUpdate => [Field("item_id", "inventory.item_id")]
    case CreditsCreate => [Field("credit_id", "credit.id"), Field("artifact_id", "artifact.id")]
    case ExportsExport => [Field("file_uri", "artifact.file_uri")]
    case _ => []
  }

  function Spec(op: Op): Endpoint {
    Endpoint(OpName(op), Parameters(op), Outputs(op), op.InventoryDelete?)
  }

  /** The seven base tools, in registration order. */
  function BaseTools(): Catalog {
    [
      Tool(TOOL_KEYS[0], [Spec(PapersSearch), Spec(PapersRetrieve), Spec(PapersSummarize)]),
      Tool(TOOL_KEYS[1], [Spec(MaterialsSearch), Spec(MaterialsRetrieve), Spec(MaterialsCurrent),
                          Spec(MaterialsHistory), Spec(MaterialsForecast)]),
      Tool(TOOL_KEYS[2], [Spec(InventoryList), Spec(InventoryCreate), Spec(InventoryUpdate), Spec(InventoryDelete)]),
      Tool(TOOL_KEYS[3], [Spec(MessagingSend), Spec(MessagingShare)]),
      Tool(TOOL_KEYS[4], [Spec(CreditsCreate), Spec(CreditsCancel), Spec(CreditsRefund)]),
      Tool(TOOL_KEYS[5], [Spec(RuntimeRestart), Spec(RuntimeExecute)]),
      Tool(TOOL_KEYS[6], [Spec(ExportsExport)])
    ]
  }

  /** The catalog offers every base operation under its own route. */
  ghost predicate Provides(reg: Catalog) {
    forall op: Op :: Resolve(reg, Route(op)) == Some(Spec(op)) && Route(op) in RouteIds(reg)
  }

  lemma OpAt(op: Op)
    ensures ToolIndex(op) < |BaseTools()| && EndpointIndex(op) < |BaseTools()[ToolIndex(op)].endpoints|
    ensures BaseTools()[ToolIndex(op)].key == ToolKey(op)
    ensures BaseTools()[ToolIndex(op)].endpoints[EndpointIndex(op)] == Spec(op)
  {
    hide Spec;
    match op {
      case PapersSearch => case PapersRetrieve => case PapersSummarize =>
      case MaterialsSearch => case MaterialsRetrieve => case MaterialsCurrent =>
      case MaterialsHistory => case MaterialsForecast =>
      case InventoryList => case InventoryCreate => case InventoryUpdate => case InventoryDelete =>
      case MessagingSend => case MessagingShare =>
      case CreditsCreate => case CreditsCancel => case CreditsRefund =>
      case RuntimeRestart => case RuntimeExecute =>
      case ExportsExport =>
    }
  }

  lemma KeysDotFree()
    ensures forall i | 0 <= i < |TOOL_KEYS| :: '.' !in TOOL_KEYS[i]
  {
  }

  /** The base tools make a well-formed catalog. */
  lemma BaseWellFormed()
    ensures WellFormed(BaseTools())
  {
    KeysDistinct();
    NamesDistinct();
    DimensionsNamed();
    hide Spec;
    assert forall i | 0 <= i < 7 :: BaseTools()[i].key == TOOL_KEYS[i];
  }

  lemma KeysDistinct()
    ensures forall i, j | 0 <= i < j < 7 :: TOOL_KEYS[i] != TOOL_KEYS[j]
  {
    assert |TOOL_KEYS[0]| == 6 && |TOOL_KEYS[1]| == 9 && |TOOL_KEYS[2]| == 9 && |TOOL_KEYS[3]| == 9;
    assert |TOOL_KEYS[4]| == 7 && |TOOL_KEYS[5]| == 7 && |TOOL_KEYS[6]| == 7;
    assert TOOL_KEYS[1][1] == 'a' && TOOL_KEYS[2][1] == 'n' && TOOL_KEYS[3][1] == 'e';
    assert TOOL_KEYS[4][0] == 'c' && TOOL_KEYS[5][0] == 'r' && TOOL_KEYS[6][0] == 'e';
  }

  /** The first two letters tell the operations of one tool apart. */
  function Prefix(op: Op): (char, char) {
    match op
    case PapersSearch => ('s', 'e') case PapersRetrieve => ('r', 'e') case PapersSummarize => ('s', 'u')
    case MaterialsSearch => ('s', 'e') case MaterialsRetrieve => ('r', 'e') case MaterialsCurrent => ('c', 'u')
    case MaterialsHistory => ('h', 'i') case MaterialsForecast => ('f', 'o')
    case InventoryList => ('l', 'i') case InventoryCreate => ('c', 'r') case InventoryUpdate => ('u', 'p')
    case InventoryDelete => ('d', 'e')
    case MessagingSend => ('s', 'e') case MessagingShare => ('s', 'h')
    case CreditsCreate => ('c', 'r') case CreditsCancel => ('c', 'a') case CreditsRefund => ('r', 'e')
    case RuntimeRestart => ('r', 'e') case RuntimeExecute => ('e', 'x')
    case ExportsExport => ('e', 'x')
  }

  lemma PrefixOfName(op: Op)
    ensures |OpName(op)| >= 2 && (OpName(op)[0], OpName(op)[1]) == Prefix(op)
  {
  }

  /** The operation at a position of the base tools. */
  function OpFor(i: nat, j: nat): Op {
    if i == 0 then (if j == 0 then PapersSearch else if j == 1 then PapersRetrieve else PapersSummarize)
    else if i == 1 then
      if j == 0 then MaterialsSearch else if j == 1 then MaterialsRetrieve
      else if j == 2 then MaterialsCurrent else if j == 3 then MaterialsHistory else MaterialsForecast
    else if i == 2 then
      if j == 0 then InventoryList else if j == 1 then InventoryCreate
      else if j == 2 then InventoryUpdate else InventoryDelete
    else if i == 3 then (if j == 0 then MessagingSend else MessagingShare)
    else if i == 4 then (if j == 0 then CreditsCreate else if j == 1 then CreditsCancel else CreditsRefund)
    else if i == 5 then (if j == 0 then RuntimeRestart else RuntimeExecute)
    else ExportsExport
  }

  lemma EndpointsAre(i: nat, j: nat)
    requires i < |BaseTools()| && j < |BaseTools()[i].endpoints|
    ensures BaseTools()[i].endpoints[j] == Spec(OpFor(i, j))
  {
    hide Spec;
  }

  lemma PrefixDistinct(i: nat, j: nat, k: nat)
    requires i < |BaseTools()| && j < k < |BaseTools()[i].endpoints|
    ensures Prefix(OpFor(i, j)) != Prefix(OpFor(i, k))
  {
    hide Spec;
  }

  lemma NamesDistinct()
    ensures forall i | 0 <= i < |BaseTools()| :: DistinctEndpoints(BaseTools()[i])
  {
    forall i, j, k | 0 <= i < |BaseTools()| && 0 <= j < k < |BaseTools()[i].endpoints|
      ensures BaseTools()[i].endpoints[j].name != BaseTools()[i].endpoints[k].name
    {
      EndpointsAre(i, j);
      EndpointsAre(i, k);
      PrefixDistinct(i, j, k);
      PrefixOfName(OpFor(i, j));
      PrefixOfName(OpFor(i, k));
      hide OpName, Prefix, OpFor, BaseTools;
    }
    hide BaseTools;
  }

  lemma OutputsOk(op: Op)
    ensures forall i | 0 <= i < |Outputs(op)| :: Outputs(op)[i].dimension != Some("")
  {
    assert |ModulusField().dimension.value| > 0;
    hide ModulusField;
  }

  lemma DimensionsNamed()
    ensures forall i, j | 0 <= i < |BaseTools()| && 0 <= j < |BaseTools()[i].endpoints| ::
      FieldsOk(BaseTools()[i].endpoints[j])
  {
    forall i, j | 0 <= i < |BaseTools()| && 0 <= j < |BaseTools()[i].endpoints|
      ensures FieldsOk(BaseTools()[i].endpoints[j])
    {
      EndpointsAre(i, j);
      OutputsOk(OpFor(i, j));
      hide BaseTools, OpFor, Outputs;
    }
    hide BaseTools;
  }

  /** Any well-formed catalog that starts with the base tools, whatever distractors
      follow, provides every base operation. */
  lemma ExtendedCatalogProvides(reg: Catalog)
    requires WellFormed(reg) && BaseTools() <= reg
    ensures Provides(reg)
  {
    forall op: Op ensures Resolve(reg, Route(op)) == Some(Spec(op)) && Route(op) in RouteIds(reg) {
      hide *;
      OperationProvided(reg, op);
    }
  }

  lemma OperationProvided(reg: Catalog, op: Op)
    requires WellFormed(reg) && BaseTools() <= reg
    ensures Resolve(reg, Route(op)) == Some(Spec(op)) && Route(op) in RouteIds(reg)
  {
    OpAt(op);
    KeysDotFree();
    var i, j := ToolIndex(op), EndpointIndex(op);
    assert reg[i] == BaseTools()[i];
    hide BaseTools, Spec, Resolve, RouteIds, WellFormed, ToolIndex, EndpointIndex, ToolKey, OpName;
    assert RouteOf(reg[i], reg[i].endpoints[j]) == Route(op) by { NamedSpec(op); }
    DotFreeResolves(reg, i, j);
    RouteIdsMembers(reg, Route(op));
  }

  lemma NamedSpec(op: Op)
    ensures Spec(op).name == OpName(op)
  {
  }

  /** No base route contains an underscore, so every one of them can be called. */
  lemma RouteCallable(op: Op)
    ensures Callable(Route(op))
  {
    assert forall i | 0 <= i < |TOOL_KEYS| :: '_' !in TOOL_KEYS[i];
    assert '_' !in OpName(op);
    var route := Route(op);
    assert forall c | c in route :: c in ToolKey(op) || c == '.' || c in OpName(op);
    hide ToolKey, OpName, Route;
    forall j: nat ensures !DunderAt(route, j) {
      assert j < |route| ==> route[j] in route;
    }
  }

  /** Different operations have different routes. */
  lemma RouteInjective(a: Op, b: Op)
    requires Route(a) == Route(b)
    ensures a == b
  {
    KeysDotFree();
    KeysDistinct();
    assert '.' !in ToolKey(a) && '.' !in ToolKey(b);
    FirstDot(ToolKey(a), OpName(a));
    FirstDot(ToolKey(b), OpName(b));
    var k := |ToolKey(a)|;
    assert ToolKey(a) == Route(a)[..k] && ToolKey(b) == Route(b)[..k];
    assert OpName(a) == Route(a)[k + 1..] && OpName(b) == Route(b)[k + 1..];
    PrefixOfName(a);
    PrefixOfName(b);
    hide OpName, Route, TOOL_KEYS;
    SameToolSamePrefix(a, b);
  }

  lemma SameToolSamePrefix(a: Op, b: Op)
    requires ToolIndex(a) == ToolIndex(b) && Prefix(a) == Prefix(b)
    ensures a == b
  {
  }
}
