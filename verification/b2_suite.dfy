/** The hand-written task suite of the second executor: its literal tables, and the
    schedules that finish every task. */
module B2Suite {
  import opened Wrappers
  import opened Text
  import opened JsonValues
  import opened Registry
  import opened Gates
  import opened BaseCatalog
  import opened Deterministic
  import Builders
  import Solvability

  datatype Task =
    | SinglePaperSearch | SinglePaperRetrieve | SinglePaperSummary
    | SingleMaterialSearch | SingleMaterialRetrieve | SingleMaterialCurrent
    | SingleMaterialHistory | SingleMaterialForecast
    | SingleInventoryList | SingleInventoryCreate | SingleInventoryUpdate | SingleInventoryDelete
    | SingleMessageSend | SingleShare | SingleCreditRefund | SingleRuntimeRestart | SingleExport
    | MultiPaperSearchRetrieve | MultiPaperRetrieveSummary | MultiMaterialSearchCurrent
    | MultiCreateShare | MultiCreateSend | MultiRetrieveExport

  /** The operations a task requires, in order. */
  function Ops(t: Task): (ops: seq<Op>)
    ensures 1 <= |ops| <= 2
  {
    match t
    case SinglePaperSearch => [PapersSearch]
    case SinglePaperRetrieve => [PapersRetrieve]
    case SinglePaperSummary => [PapersSummarize]
    case SingleMaterialSearch => [MaterialsSearch]
    case SingleMaterialRetrieve => [MaterialsRetrieve]
    case SingleMaterialCurrent => [MaterialsCurrent]
    case SingleMaterialHistory => [MaterialsHistory]
    case SingleMaterialForecast => [MaterialsForecast]
    case SingleInventoryList => [InventoryList]
    case SingleInventoryCreate => [InventoryCreate]
    case SingleInventoryUpdate => [InventoryUpdate]
    case SingleInventoryDelete => [InventoryDelete]
    case SingleMessageSend => [MessagingSend]
    case SingleShare => [MessagingShare]
    case SingleCreditRefund => [CreditsRefund]
    case SingleRuntimeRestart => [RuntimeRestart]
    case SingleExport => [ExportsExport]
    case MultiPaperSearchRetrieve => [PapersSearch, PapersRetrieve]
    case MultiPaperRetrieveSummary => [PapersRetrieve, PapersSummarize]
    case MultiMaterialSearchCurrent => [MaterialsSearch, MaterialsCurrent]
    case MultiCreateShare => [CreditsCreate, MessagingShare]
    case MultiCreateSend => [InventoryCreate, MessagingSend]
    case MultiRetrieveExport => [MaterialsRetrieve, ExportsExport]
  }

  /** Required argument and its exact text. */
  function ExactRule(t: Task, op: Op): Option<(string, string)> {
    match (t, op)
    case (SinglePaperRetrieve, PapersRetrieve) => Some(("paper_id", "P-104"))
    case (SinglePaperSummary, PapersSummarize) => Some(("paper_id", "P-104"))
    case (SingleMaterialRetrieve, MaterialsRetrieve) => Some(("material_id", "MAT-7"))
    case (SingleMaterialCurrent, MaterialsCurrent) => Some(("material_id", "MAT-7"))
    case (SingleMaterialHistory, MaterialsHistory) => Some(("material_id", "MAT-7"))
    case (SingleMaterialForecast, MaterialsForecast) => Some(("material_id", "MAT-7"))
    case (SingleInventoryCreate, InventoryCreate) => Some(("item_name", "cathode-powder"))
    case (SingleInventoryUpdate, InventoryUpdate) => Some(("item_id", "INV-3"))
    case (SingleInventoryDelete, InventoryDelete) => Some(("item_id", "INV-3"))
    case (SingleCreditRefund, CreditsRefund) => Some(("credit_id", "CR-8"))
    case (SingleRuntimeRestart, RuntimeRestart) => Some(("runtime_id", "RT-2"))
    case (SingleExport, ExportsExport) => Some(("artifact_id", "ART-2"))
    case (MultiPaperRetrieveSummary, PapersRetrieve) => Some(("paper_id", "P-205"))
    case (MultiPaperRetrieveSummary, PapersSummarize) => Some(("paper_id", "P-205"))
    case (MultiCreateSend, InventoryCreate) => Some(("item_name", "anode-binder"))
    case (MultiRetrieveExport, MaterialsRetrieve) => Some(("material_id", "MAT-7"))
    case _ => None
  }

  predicate EqText(args: Object, key: string, value: string) {
    key in args && args[key].Str? && Strip(args[key].s) == value
  }

  predicate HasText(args: Object, key: string) {
    key in args && args[key].Str? && Strip(args[key].s) != ""
  }

  /** `str(state.get(key, ""))`; the suite only ever stores strings. */
  function StateText(state: Object, key: string): string {
    if key in state && state[key].Str? then state[key].s else ""
  }

  /** `_semantic_valid`, for an operation of the base catalog. */
  predicate RightArguments(t: Task, state: Object, op: Op, args: Object) {
    var rule := ExactRule(t, op);
    if rule.Some? then EqText(args, rule.value.0, rule.value.1)
    else if op.PapersSearch? || op.MaterialsSearch? then HasText(args, "query")
    else match (t, op)
      case (SingleMessageSend, MessagingSend) =>
        EqText(args, "recipient", Builders.RECIPIENT) && EqText(args, "message", "Experiment complete.")
      case (SingleShare, MessagingShare) =>
        EqText(args, "artifact_id", "ART-2") && EqText(args, "recipient", Builders.RECIPIENT)
      case (MultiPaperSearchRetrieve, PapersRetrieve) =>
        EqText(args, "paper_id", StateText(state, "selected_paper_id"))
      case (MultiMaterialSearchCurrent, MaterialsCurrent) =>
        EqText(args, "material_id", StateText(state, "selected_material_id"))
      case (MultiCreateShare, CreditsCreate) =>
        "amount" in args && IsNumber(args["amount"]) && Numeric(args["amount"]) == Some(100.0)
      case (MultiCreateShare, MessagingShare) =>
        EqText(args, "artifact_id", StateText(state, "created_artifact_id")) &&
        EqText(args, "recipient", Builders.RECIPIENT)
      case (MultiCreateSend, MessagingSend) =>
        && EqText(args, "recipient", Builders.RECIPIENT)
        && "message" in args && args["message"].Str? && Contains(args["message"].s, "INV-NEW-1")
      case (MultiRetrieveExport, ExportsExport) =>
        EqText(args, "artifact_id", StateText(state, "material_artifact_id"))
      case _ => true
  }

  function MaterialArtifact(t: Task): string {
    if t.MultiRetrieveExport? then "ART-MAT-7" else "ART-MATERIAL"
  }

  /** What `_observation` returns for a consumed operation. */
  function ShownBy(t: Task, state: Object, op: Op): Object {
    match op
    case PapersSearch => map["status" := Builders.OK, "paper_id" := Str("P-SEARCH-1"), "title" := Str("Selected paper")]
    case PapersRetrieve =>
      var paper := if t.MultiPaperSearchRetrieve? then StateText(state, "selected_paper_id")
                   else if t.MultiPaperRetrieveSummary? then "P-205" else "P-104";
      map["status" := Builders.OK, "paper_id" := Str(paper), "paper_text" := Str("Deterministic paper content.")]
    case PapersSummarize => map["status" := Builders.OK, "summary" := Str("Deterministic paper summary.")]
    case MaterialsSearch =>
      map["status" := Builders.OK, "material_id" := Str("MAT-SEARCH-1"), "formula" := Str("LiNi0.8Mn0.1Co0.1O2")]
    case MaterialsRetrieve =>
      map["status" := Builders.OK, "material_id" := Str("MAT-7"), "formula" := Str("LiFePO4"),
          "artifact_id" := Str(MaterialArtifact(t))]
    case MaterialsCurrent => map["status" := Builders.OK, "youngs_modulus" := Num(125.0), "unit" := Str("GPa")]
    case MaterialsHistory =>
      map["status" := Builders.OK, "youngs_modulus" := Arr([Num(121.0), Num(123.0), Num(125.0)]), "unit" := Str("GPa")]
    case MaterialsForecast =>
      map["status" := Builders.OK, "youngs_modulus" := Arr([Num(126.0), Num(127.0)]), "unit" := Str("GPa")]
    case InventoryList => map["status" := Builders.OK, "items" := Arr([Str("INV-1"), Str("INV-2"), Str("INV-3")])]
    case InventoryCreate => map["status" := Builders.OK, "item_id" := Str("INV-NEW-1")]
    case InventoryUpdate => map["status" := Builders.OK, "item_id" := Str("INV-3")]
    case InventoryDelete => map["status" := Builders.OK, "deleted_item_id" := Str("INV-3")]
    case MessagingSend => map["status" := Builders.OK, "message_id" := Str("MSG-1")]
    case MessagingShare => map["status" := Builders.OK, "share_id" := Str("SHARE-1")]
    case CreditsCreate =>
      map["status" := Builders.OK, "credit_id" := Str("CR-NEW-1"), "artifact_id" := Str("ART-CREDIT-1")]
    case CreditsCancel => map["status" := Builders.OK, "cancelled" := Bool(true)]
    case CreditsRefund => map["status" := Builders.OK, "refunded" := Bool(true)]
    case RuntimeRestart => map["status" := Builders.OK, "runtime_id" := Str("RT-2"), "state" := Str("running")]
    case RuntimeExecute => map["status" := Builders.OK, "execution_id" := Str("EXEC-1")]
    case ExportsExport => map["status" := Builders.OK, "file_uri" := Str("file:///tmp/artifact.json")]
  }

  /** What `_observation` writes into the task state for a consumed operation. */
  function StoredBy(t: Task, op: Op): Object {
    match op
    case PapersSearch => map["selected_paper_id" := Str("P-SEARCH-1")]
    case MaterialsSearch => map["selected_material_id" := Str("MAT-SEARCH-1")]
    case MaterialsRetrieve => map["material_artifact_id" := Str(MaterialArtifact(t))]
    case InventoryCreate => map["created_item_id" := Str("INV-NEW-1")]
    case CreditsCreate => map["created_artifact_id" := Str("ART-CREDIT-1")]
    case _ => map[]
  }

  // ---- The suite as a script ------------------------------------------------------------------

  /** The base operation a route stands for. */
  ghost function OpOf(route: string): Option<Op> {
    if op: Op :| Route(op) == route then Some(op) else None
  }

  lemma OpOfRoute(op: Op)
    ensures OpOf(Route(op)) == Some(op)
  {
    var found: Op :| Route(found) == Route(op);
    RouteInjective(OpOf(Route(op)).value, op);
  }

  ghost function Suite(reg: Catalog, t: Task): Script {
    Script(
      reg,
      seq(|Ops(t)|, i requires 0 <= i < |Ops(t)| => Route(Ops(t)[i])),
      (state: Object, route: string, args: Object) =>
        OpOf(route).Some? ==> RightArguments(t, state, OpOf(route).value, args),
      (state: Object, route: string) =>
        if OpOf(route).Some? then ShownBy(t, state, OpOf(route).value) else map["status" := Builders.OK],
      (state: Object, route: string) =>
        if OpOf(route).Some? then StoredBy(t, OpOf(route).value) else map[])
  }

  /** The state before the `k`-th required operation. */
  function StateBefore(t: Task, k: nat): Object
    requires k < |Ops(t)|
  {
    if k == 0 then map[] else map[] + StoredBy(t, Ops(t)[0])
  }

  /** Arguments that are right for a required operation. */
  function Answer(t: Task, op: Op): Object {
    var rule := ExactRule(t, op);
    if rule.Some? then map[rule.value.0 := Str(rule.value.1)]
    else match op
      case PapersSearch => map["query" := Str("x")]
      case MaterialsSearch => map["query" := Str("x")]
      case PapersRetrieve => map["paper_id" := Str("P-SEARCH-1")]
      case MaterialsCurrent => map["material_id" := Str("MAT-SEARCH-1")]
      case CreditsCreate => map["amount" := Int(100)]
      case MessagingShare =>
        map["artifact_id" := Str(if t.SingleShare? then "ART-2" else "ART-CREDIT-1"),
            "recipient" := Str(Builders.RECIPIENT)]
      case MessagingSend =>
        map["recipient" := Str(Builders.RECIPIENT),
            "message" := Str(if t.SingleMessageSend? then "Experiment complete." else "INV-NEW-1")]
      case ExportsExport => map["artifact_id" := Str("ART-MAT-7")]
      case _ => map[]
  }

  lemma StripIdle(s: string)
    requires s != "" && !IsSpace(s[0]) && !IsSpace(s[|s| - 1])
    ensures Strip(s) == s && !Blank(s)
  {
  }

  ghost predicate Visible(s: string) {
    s != "" && !IsSpace(s[0]) && !IsSpace(s[|s| - 1])
  }

  lemma ExactRuleFits(t: Task, op: Op)
    requires ExactRule(t, op).Some?
    ensures BaseCatalog.Parameters(op) == Text1(ExactRule(t, op).value.0) && Visible(ExactRule(t, op).value.1)
  {
  }

  /** One text argument that a rule or the state demands. */
  lemma OneText(op: Op, key: string, v: string)
    requires BaseCatalog.Parameters(op) == Text1(key) && Visible(v)
    ensures SchemaFault(Spec(op), map[key := Str(v)]) == None
    ensures EqText(map[key := Str(v)], key, v) && HasText(map[key := Str(v)], key)
  {
    StripIdle(v);
    hide Strip, SchemaFault, BaseCatalog.Parameters;
    Solvability.OneTextValid(op, key, v);
  }

  lemma TwoTexts(op: Op, a: string, b: string, va: string, vb: string)
    requires BaseCatalog.Parameters(op) == Text2(a, b) && a != b && Visible(va) && Visible(vb)
    ensures SchemaFault(Spec(op), map[a := Str(va), b := Str(vb)]) == None
    ensures EqText(map[a := Str(va), b := Str(vb)], a, va) && EqText(map[a := Str(va), b := Str(vb)], b, vb)
  {
    StripIdle(va);
    StripIdle(vb);
    hide Strip, SchemaFault, BaseCatalog.Parameters;
    Solvability.TwoTextsValid(op, a, b, va, vb);
  }

  lemma NoArguments()
    ensures SchemaFault(Spec(InventoryList), map[]) == None
  {
    SchemaFaultMeaning(Spec(InventoryList), map[]);
  }

  lemma LiteralsVisible()
    ensures Visible("x") && Visible(Builders.RECIPIENT) && Visible("Experiment complete.") && Visible("INV-NEW-1")
    ensures Visible("ART-2") && Visible("ART-CREDIT-1") && Visible("ART-MAT-7")
    ensures Visible("P-SEARCH-1") && Visible("MAT-SEARCH-1")
  {
  }

  /** The arguments are accepted by the operation's schema and by the task's rule. */
  ghost predicate Right(t: Task, state: Object, op: Op, args: Object) {
    RightArguments(t, state, op, args) && SchemaFault(Spec(op), args) == None
  }

  lemma RuleRight(t: Task, state: Object, op: Op)
    requires ExactRule(t, op).Some?
    ensures Right(t, state, op, Answer(t, op))
  {
    ExactRuleFits(t, op);
    hide ExactRule, SchemaFault, EqText, Visible, BaseCatalog.Parameters, Spec;
    OneText(op, ExactRule(t, op).value.0, ExactRule(t, op).value.1);
  }

  lemma SearchRight(t: Task, state: Object, op: Op)
    requires ExactRule(t, op).None? && (op.PapersSearch? || op.MaterialsSearch?)
    ensures Right(t, state, op, Answer(t, op))
  {
    LiteralsVisible();
    OneText(op, "query", "x");
    hide ExactRule, SchemaFault, EqText, HasText, Visible;
  }

  lemma ChainRight(t: Task)
    requires ChainKey(t).Some? && !t.MultiCreateShare?
    ensures |Ops(t)| == 2 && Right(t, StateBefore(t, 1), Ops(t)[1], Answer(t, Ops(t)[1]))
  {
    LiteralsVisible();
    hide SchemaFault, EqText, HasText, Visible, Spec;
    match t {
      case MultiPaperSearchRetrieve => OneText(PapersRetrieve, "paper_id", "P-SEARCH-1");
      case MultiMaterialSearchCurrent => OneText(MaterialsCurrent, "material_id", "MAT-SEARCH-1");
      case MultiRetrieveExport => OneText(ExportsExport, "artifact_id", "ART-MAT-7");
    }
  }

  lemma ShareRight(t: Task, state: Object)
    requires t.SingleShare? || (t.MultiCreateShare? && StateText(state, "created_artifact_id") == "ART-CREDIT-1")
    ensures Right(t, state, MessagingShare, Answer(t, MessagingShare))
  {
    var artifact := if t.SingleShare? then "ART-2" else "ART-CREDIT-1";
    LiteralsVisible();
    assert BaseCatalog.Parameters(MessagingShare) == Text2("artifact_id", "recipient");
    assert Answer(t, MessagingShare) == map["artifact_id" := Str(artifact), "recipient" := Str(Builders.RECIPIENT)];
    hide RightArguments, BaseCatalog.Parameters, SchemaFault, EqText, Visible, Spec, Answer;
    TwoTexts(MessagingShare, "artifact_id", "recipient", artifact, Builders.RECIPIENT);
    ShareTakes(t, state, Answer(t, MessagingShare), artifact);
  }

  lemma ShareState(t: Task, k: nat)
    requires k < |Ops(t)| && Ops(t)[k].MessagingShare?
    ensures t.SingleShare?
         || (t.MultiCreateShare? && StateText(StateBefore(t, k), "created_artifact_id") == "ART-CREDIT-1")
  {
  }

  lemma ShareTakes(t: Task, state: Object, args: Object, artifact: string)
    requires t.SingleShare? || (t.MultiCreateShare? && StateText(state, "created_artifact_id") == "ART-CREDIT-1")
    requires artifact == if t.SingleShare? then "ART-2" else "ART-CREDIT-1"
    requires EqText(args, "artifact_id", artifact) && EqText(args, "recipient", Builders.RECIPIENT)
    ensures RightArguments(t, state, MessagingShare, args)
  {
    hide EqText, HasText, StateText;
  }

  lemma SendRight(t: Task, state: Object)
    requires t.SingleMessageSend? || t.MultiCreateSend?
    ensures Right(t, state, MessagingSend, Answer(t, MessagingSend))
  {
    var message := if t.SingleMessageSend? then "Experiment complete." else "INV-NEW-1";
    LiteralsVisible();
    assert BaseCatalog.Parameters(MessagingSend) == Text2("recipient", "message");
    assert Answer(t, MessagingSend) == map["recipient" := Str(Builders.RECIPIENT), "message" := Str(message)];
    hide RightArguments, BaseCatalog.Parameters, SchemaFault, EqText, Visible, Spec, Answer;
    TwoTexts(MessagingSend, "recipient", "message", Builders.RECIPIENT, message);
    SendTakes(t, state, Answer(t, MessagingSend), message);
  }

  lemma SendTakes(t: Task, state: Object, args: Object, message: string)
    requires t.SingleMessageSend? || t.MultiCreateSend?
    requires message == if t.SingleMessageSend? then "Experiment complete." else "INV-NEW-1"
    requires EqText(args, "recipient", Builders.RECIPIENT) && EqText(args, "message", message)
    requires "message" in args && args["message"] == Str(message)
    ensures RightArguments(t, state, MessagingSend, args)
  {
    ContainsSelf("INV-NEW-1");
    hide EqText, HasText, Contains;
  }

  lemma CreditRight(state: Object)
    ensures Right(MultiCreateShare, state, CreditsCreate, Answer(MultiCreateShare, CreditsCreate))
  {
    Solvability.AmountValid(100);
    hide SchemaFault, Spec;
  }

  lemma ListRight(state: Object)
    ensures Right(SingleInventoryList, state, InventoryList, Answer(SingleInventoryList, InventoryList))
  {
    NoArguments();
    hide SchemaFault, Spec;
  }

  /** Every required operation has arguments that its schema and its rule accept in the
      state the earlier operations stored. */
  lemma AnswerRight(t: Task, k: nat)
    requires k < |Ops(t)|
    ensures Right(t, StateBefore(t, k), Ops(t)[k], Answer(t, Ops(t)[k]))
  {
    var op := Ops(t)[k];
    hide Right, Answer, RightArguments, StoredBy, StateBefore, StateText;
    if ExactRule(t, op).Some? {
      RuleRight(t, StateBefore(t, k), op);
    } else {
      match op {
        case PapersSearch => SearchRight(t, StateBefore(t, k), op);
        case MaterialsSearch => SearchRight(t, StateBefore(t, k), op);
        case PapersRetrieve => ChainRight(t);
        case MaterialsCurrent => ChainRight(t);
        case ExportsExport => ChainRight(t);
        case CreditsCreate => CreditRight(StateBefore(t, k));
        case MessagingShare =>
          ShareState(t, k);
          ShareRight(t, StateBefore(t, k));
        case MessagingSend => SendRight(t, StateBefore(t, k));
        case InventoryList => ListRight(StateBefore(t, k));
        case _ =>
      }
    }
  }

  /** A chained task: its second operation takes an identifier the first one returned,
      under this name. */
  function ChainKey(t: Task): Option<string> {
    match t
    case MultiPaperSearchRetrieve => Some("paper_id")
    case MultiMaterialSearchCurrent => Some("material_id")
    case MultiCreateShare => Some("artifact_id")
    case MultiRetrieveExport => Some("artifact_id")
    case _ => None
  }

  /** In a chained task the agent was shown the identifier the next rule wants: what the
      first operation stores and what it returns are the same text, and nothing else is
      accepted in its place. */
  lemma ChainedIdentifierWasShown(t: Task, args: Object)
    requires ChainKey(t).Some?
    ensures |Ops(t)| == 2
    ensures var key, shown := ChainKey(t).value, ShownBy(t, map[], Ops(t)[0]);
      && key in shown && shown[key].Str?
      && (RightArguments(t, StateBefore(t, 1), Ops(t)[1], args) <==>
            EqText(args, key, shown[key].s) && (t.MultiCreateShare? ==> EqText(args, "recipient", Builders.RECIPIENT)))
  {
    hide EqText;
  }

  // ---- Finishing a task -------------------------------------------------------------------------

  /** The right call for the `k`-th required operation. */
  function RightCall(t: Task, k: nat): Call
    requires k < |Ops(t)|
  {
    Call(Route(Ops(t)[k]), Answer(t, Ops(t)[k]), true, true)
  }

  lemma RightCallAdvances(reg: Catalog, t: Task, r: Run)
    requires Provides(reg) && r.progress < |Ops(t)| && r.state == StateBefore(t, r.progress)
    ensures var next := Perform(Suite(reg, t), r, RightCall(t, r.progress));
      && next.progress == r.progress + 1
      && next.state == r.state + StoredBy(t, Ops(t)[r.progress])
  {
    var op := Ops(t)[r.progress];
    AnswerRight(t, r.progress);
    OpOfRoute(op);
    assert Resolve(reg, Route(op)) == Some(Spec(op));
    hide OpOf, RightArguments, SchemaFault, Resolve, Answer, StoredBy, ShownBy, Route, Spec, Provides, Ops, StateBefore;
  }

  function RightCalls(t: Task, k: nat): seq<Call>
    requires k <= |Ops(t)|
  {
    if k == 0 then [] else RightCalls(t, k - 1) + [RightCall(t, k - 1)]
  }

  lemma PerformLast(s: Script, calls: seq<Call>, last: Call)
    ensures PerformAll(s, calls + [last]) == Perform(s, PerformAll(s, calls), last)
  {
    assert (calls + [last])[..|calls|] == calls;
    hide Perform;
  }

  lemma StateBeforeNext(t: Task, k: nat)
    requires k + 1 < |Ops(t)|
    ensures StateBefore(t, k + 1) == StateBefore(t, k) + StoredBy(t, Ops(t)[k])
  {
    hide StoredBy;
  }

  lemma RightCallsNext(t: Task, k: nat)
    requires 0 < k <= |Ops(t)|
    ensures RightCalls(t, k) == RightCalls(t, k - 1) + [RightCall(t, k - 1)]
  {
    hide RightCall, Ops;
  }

  lemma NothingCalled(reg: Catalog, t: Task)
    ensures RightCalls(t, 0) == [] && PerformAll(Suite(reg, t), []).progress == 0
    ensures PerformAll(Suite(reg, t), []).state == StateBefore(t, 0)
  {
    hide Suite, Ops, StoredBy;
  }

  lemma {:induction false} RightCallsAdvance(reg: Catalog, t: Task, k: nat)
    requires Provides(reg) && k <= |Ops(t)|
    ensures |RightCalls(t, k)| == k
    ensures PerformAll(Suite(reg, t), RightCalls(t, k)).progress == k
    ensures k < |Ops(t)| ==> PerformAll(Suite(reg, t), RightCalls(t, k)).state == StateBefore(t, k)
  {
    hide *;
    if k == 0 {
      NothingCalled(reg, t);
    } else {
      RightCallsAdvance(reg, t, k - 1);
      RightCallAdvances(reg, t, PerformAll(Suite(reg, t), RightCalls(t, k - 1)));
      RightCallsNext(t, k);
      PerformLast(Suite(reg, t), RightCalls(t, k - 1), RightCall(t, k - 1));
      if k < |Ops(t)| {
        StateBeforeNext(t, k - 1);
      }
    }
  }

  lemma {:induction false} OneStepPerCall(s: Script, calls: seq<Call>)
    ensures PerformAll(s, calls).progress <= |calls|
  {
    if calls != [] {
      OneStepPerCall(s, calls[..|calls| - 1]);
      hide GateAt, Deterministic.Expects;
    }
  }

  lemma {:induction false} FinishedStays(s: Script, calls: seq<Call>, extra: nat) returns (longer: seq<Call>)
    requires PerformAll(s, calls).progress == |s.routes|
    ensures |longer| == |calls| + extra && PerformAll(s, longer).progress == |s.routes|
  {
    longer := calls;
    if extra > 0 {
      var shorter := FinishedStays(s, calls, extra - 1);
      longer := shorter + [Call("", map[], true, true)];
      assert longer[..|shorter|] == shorter;
      EveryRunReplays(s, longer);
    }
  }

  /** Every task of the suite, on every catalog that extends the base one: some schedule
      of `m` calls completes it exactly when `m` is at least its number of required
      routes. */
  lemma SuiteCompletion(reg: Catalog, t: Task, m: nat)
    requires Provides(reg)
    ensures (exists calls :: |calls| == m && PerformAll(Suite(reg, t), calls).progress == |Ops(t)|)
       <==> |Ops(t)| <= m
  {
    var s, n := Suite(reg, t), |Ops(t)|;
    assert |s.routes| == n;
    hide Suite, Ops, PerformAll;
    RightCallsAdvance(reg, t, n);
    CompletedIn(s, RightCalls(t, n), m);
  }

  /** When one call for each route completes a script, that many calls are needed. */
  lemma CompletedIn(s: Script, right: seq<Call>, m: nat)
    requires |right| == |s.routes| == PerformAll(s, right).progress
    ensures (exists calls :: |calls| == m && PerformAll(s, calls).progress == |s.routes|) <==> |s.routes| <= m
  {
    hide PerformAll;
    if |s.routes| <= m {
      var longer := FinishedStays(s, right, m - |right|);
    }
    if exists calls :: |calls| == m && PerformAll(s, calls).progress == |s.routes| {
      var calls :| |calls| == m && PerformAll(s, calls).progress == |s.routes|;
      OneStepPerCall(s, calls);
    }
  }
}
