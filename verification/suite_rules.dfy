/** What every task of the second executor's suite asks, in literal routes and values. */
module SuiteRules {
  import opened Wrappers
  import opened Text
  import opened JsonValues
  import opened Registry
  import opened Gates
  import opened BaseCatalog
  import opened Deterministic
  import opened ArgumentRules
  import opened B2Suite
  import BuiltTasks

  /** What an argument must be: this text up to surrounding blanks, a visible text, a hundred,
      or a text that holds this one. */
  datatype Need = Trimmed(text: string) | AnyText | Hundred | Mentioning(text: string)

  datatype Stage = Stage(route: string, needs: map<string, Need>)

  ghost predicate Given(args: Object, key: string, need: Need) {
    key in args && match need
      case Trimmed(s) => args[key].Str? && exists before: string, after: string ::
        Blank(before) && Blank(after) && args[key].s == before + s + after
      case AnyText => VisibleText(args[key])
      case Hundred => NumberOf(args[key], 100.0)
      case Mentioning(s) => args[key].Str? && Holds(args[key].s, s)
  }

  function Recipient(): Need {
    Trimmed("analyst@example.org")
  }

  /** The stages of a task, in order. */
  function Stages(t: Task): seq<Stage> {
    match t
    case SinglePaperSearch => [Stage("papers.search", map["query" := AnyText])]
    case SinglePaperRetrieve => [Stage("papers.retrieve", map["paper_id" := Trimmed("P-104")])]
    case SinglePaperSummary => [Stage("papers.summarize", map["paper_id" := Trimmed("P-104")])]
    case SingleMaterialSearch => [Stage("materials.search", map["query" := AnyText])]
    case SingleMaterialRetrieve => [Stage("materials.retrieve", map["material_id" := Trimmed("MAT-7")])]
    case SingleMaterialCurrent => [Stage("materials.current", map["material_id" := Trimmed("MAT-7")])]
    case SingleMaterialHistory => [Stage("materials.history", map["material_id" := Trimmed("MAT-7")])]
    case SingleMaterialForecast => [Stage("materials.forecast", map["material_id" := Trimmed("MAT-7")])]
    case SingleInventoryList => [Stage("inventory.list", map[])]
    case SingleInventoryCreate => [Stage("inventory.create", map["item_name" := Trimmed("cathode-powder")])]
    case SingleInventoryUpdate => [Stage("inventory.update", map["item_id" := Trimmed("INV-3")])]
    case SingleInventoryDelete => [Stage("inventory.delete", map["item_id" := Trimmed("INV-3")])]
    case SingleMessageSend => [
      Stage("messaging.send", map["recipient" := Recipient(), "message" := Trimmed("Experiment complete.")])]
    case SingleShare => [Stage("messaging.share", map["artifact_id" := Trimmed("ART-2"), "recipient" := Recipient()])]
    case SingleCreditRefund => [Stage("credits.refund", map["credit_id" := Trimmed("CR-8")])]
    case SingleRuntimeRestart => [Stage("runtime.restart", map["runtime_id" := Trimmed("RT-2")])]
    case SingleExport => [Stage("exports.export", map["artifact_id" := Trimmed("ART-2")])]
    case MultiPaperSearchRetrieve => [
      Stage("papers.search", map["query" := AnyText]),
      Stage("papers.retrieve", map["paper_id" := Trimmed("P-SEARCH-1")])]
    case MultiPaperRetrieveSummary => [
      Stage("papers.retrieve", map["paper_id" := Trimmed("P-205")]),
      Stage("papers.summarize", map["paper_id" := Trimmed("P-205")])]
    case MultiMaterialSearchCurrent => [
      Stage("materials.search", map["query" := AnyText]),
      Stage("materials.current", map["material_id" := Trimmed("MAT-SEARCH-1")])]
    case MultiCreateShare => [
      Stage("credits.create", map["amount" := Hundred]),
      Stage("messaging.share", map["artifact_id" := Trimmed("ART-CREDIT-1"), "recipient" := Recipient()])]
    case MultiCreateSend => [
      Stage("inventory.create", map["item_name" := Trimmed("anode-binder")]),
      Stage("messaging.send", map["recipient" := Recipient(), "message" := Mentioning("INV-NEW-1")])]
    case MultiRetrieveExport => [
      Stage("materials.retrieve", map["material_id" := Trimmed("MAT-7")]),
      Stage("exports.export", map["artifact_id" := Trimmed("ART-MAT-7")])]
  }

  // ---- One argument -----------------------------------------------------------------------------------

  lemma TrimmedExactly(args: Object, key: string, s: string)
    requires Visible(s)
    ensures EqText(args, key, s) <==> Given(args, key, Trimmed(s))
  {
    if key in args && args[key].Str? {
      StripExactly(args[key].s, s);
    }
    hide Strip, Blank;
  }

  lemma AnyTextExactly(args: Object, key: string)
    ensures HasText(args, key) <==> Given(args, key, AnyText)
  {
    if key in args && args[key].Str? {
      StripMeaning(args[key].s);
    }
    hide Strip;
  }

  lemma HundredExactly(args: Object)
    ensures "amount" in args && IsNumber(args["amount"]) && Numeric(args["amount"]) == Some(100.0) <==>
      Given(args, "amount", Hundred)
  {
  }

  lemma MentioningExactly(args: Object, s: string)
    ensures "message" in args && args["message"].Str? && Contains(args["message"].s, s) <==>
      Given(args, "message", Mentioning(s))
  {
    if "message" in args && args["message"].Str? {
      ContainsExactly(args["message"].s, s);
    }
    hide Contains;
  }

  // ---- One operation ------------------------------------------------------------------------------------

  ghost predicate AllGiven(args: Object, needs: map<string, Need>) {
    forall key | key in needs :: Given(args, key, needs[key])
  }

  lemma OneGiven(args: Object, key: string, need: Need)
    ensures AllGiven(args, map[key := need]) <==> Given(args, key, need)
  {
    assert key in map[key := need];
    hide Given;
  }

  lemma TwoGiven(args: Object, k: string, m: Need, l: string, n: Need)
    requires k != l
    ensures AllGiven(args, map[k := m, l := n]) <==> Given(args, k, m) && Given(args, l, n)
  {
    assert k in map[k := m, l := n] && l in map[k := m, l := n];
    hide Given;
  }

  lemma ExactlyOne(args: Object, key: string, s: string)
    requires Visible(s)
    ensures AllGiven(args, map[key := Trimmed(s)]) <==> EqText(args, key, s)
  {
    OneGiven(args, key, Trimmed(s));
    TrimmedExactly(args, key, s);
    hide AllGiven, Given, EqText;
  }

  lemma MoreRouteNames()
    ensures Route(InventoryList) == "inventory.list" && Route(CreditsRefund) == "credits.refund"
  {
  }

  lemma StageRoutes(t: Task)
    ensures |Stages(t)| == |Ops(t)| && forall k | 0 <= k < |Ops(t)| :: Stages(t)[k].route == Route(Ops(t)[k])
  {
    hide Route;
    BuiltTasks.RouteNames();
    MoreRouteNames();
  }

  lemma RuleNeeds(t: Task, k: nat)
    requires k < |Ops(t)| && k < |Stages(t)| && ExactRule(t, Ops(t)[k]).Some?
    ensures var rule := ExactRule(t, Ops(t)[k]).value; Stages(t)[k].needs == map[rule.0 := Trimmed(rule.1)]
  {
  }

  lemma RuleStage(t: Task, k: nat, args: Object)
    requires k < |Ops(t)| && k < |Stages(t)| && ExactRule(t, Ops(t)[k]).Some?
    ensures RightArguments(t, StateBefore(t, k), Ops(t)[k], args) <==> AllGiven(args, Stages(t)[k].needs)
  {
    var rule := ExactRule(t, Ops(t)[k]).value;
    hide AllGiven, EqText, StateBefore, Stages, Ops, ExactRule, Visible;
    RuleNeeds(t, k);
    ExactRuleFits(t, Ops(t)[k]);
    ExactlyOne(args, rule.0, rule.1);
  }

  lemma SearchStage(t: Task, k: nat, args: Object)
    requires k < |Ops(t)| && k < |Stages(t)| && (Ops(t)[k].PapersSearch? || Ops(t)[k].MaterialsSearch?)
    ensures RightArguments(t, StateBefore(t, k), Ops(t)[k], args) <==> AllGiven(args, Stages(t)[k].needs)
  {
    hide AllGiven, HasText, StateBefore;
    SearchNeeds(t, k);
    hide Stages, Ops, ExactRule;
    OneGiven(args, "query", AnyText);
    AnyTextExactly(args, "query");
  }

  lemma SearchNeeds(t: Task, k: nat)
    requires k < |Ops(t)| && k < |Stages(t)| && (Ops(t)[k].PapersSearch? || Ops(t)[k].MaterialsSearch?)
    ensures ExactRule(t, Ops(t)[k]).None? && Stages(t)[k].needs == map["query" := AnyText]
  {
  }

  lemma SendStage(args: Object)
    ensures var t := SingleMessageSend;
      RightArguments(t, StateBefore(t, 0), Ops(t)[0], args) <==> AllGiven(args, Stages(t)[0].needs)
  {
    LiteralsVisible();
    hide EqText, HasText, Contains, Visible, Given, AllGiven;
    TwoGiven(args, "recipient", Recipient(), "message", Trimmed("Experiment complete."));
    TrimmedExactly(args, "recipient", "analyst@example.org");
    TrimmedExactly(args, "message", "Experiment complete.");
  }

  lemma ShareStage(args: Object)
    ensures var t := SingleShare;
      RightArguments(t, StateBefore(t, 0), Ops(t)[0], args) <==> AllGiven(args, Stages(t)[0].needs)
  {
    LiteralsVisible();
    hide EqText, HasText, Contains, Visible, Given, AllGiven;
    TwoGiven(args, "artifact_id", Trimmed("ART-2"), "recipient", Recipient());
    TrimmedExactly(args, "artifact_id", "ART-2");
    TrimmedExactly(args, "recipient", "analyst@example.org");
  }

  lemma CreditStage(args: Object)
    ensures var t := MultiCreateShare;
      RightArguments(t, StateBefore(t, 0), Ops(t)[0], args) <==> AllGiven(args, Stages(t)[0].needs)
  {
    LiteralsVisible();
    hide EqText, HasText, Contains, Visible, Given, AllGiven;
    OneGiven(args, "amount", Hundred);
    HundredExactly(args);
  }

  lemma ShareNewStage(args: Object)
    ensures var t := MultiCreateShare;
      RightArguments(t, StateBefore(t, 1), Ops(t)[1], args) <==> AllGiven(args, Stages(t)[1].needs)
  {
    LiteralsVisible();
    hide EqText, HasText, Contains, Visible, Given, AllGiven;
    TwoGiven(args, "artifact_id", Trimmed("ART-CREDIT-1"), "recipient", Recipient());
    TrimmedExactly(args, "artifact_id", "ART-CREDIT-1");
    TrimmedExactly(args, "recipient", "analyst@example.org");
  }

  lemma SendNewStage(args: Object)
    ensures var t := MultiCreateSend;
      RightArguments(t, StateBefore(t, 1), Ops(t)[1], args) <==> AllGiven(args, Stages(t)[1].needs)
  {
    LiteralsVisible();
    hide EqText, HasText, Contains, Visible, Given, AllGiven;
    TwoGiven(args, "recipient", Recipient(), "message", Mentioning("INV-NEW-1"));
    TrimmedExactly(args, "recipient", "analyst@example.org");
    MentioningExactly(args, "INV-NEW-1");
  }

  lemma ListStage(args: Object)
    ensures RightArguments(SingleInventoryList, StateBefore(SingleInventoryList, 0), Ops(SingleInventoryList)[0], args)
    ensures AllGiven(args, Stages(SingleInventoryList)[0].needs)
  {
    hide Given;
  }

  lemma FoundPaperStage(args: Object)
    ensures var t := MultiPaperSearchRetrieve;
      RightArguments(t, StateBefore(t, 1), Ops(t)[1], args) <==> AllGiven(args, Stages(t)[1].needs)
  {
    LiteralsVisible();
    hide EqText, HasText, Contains, Visible, Given, AllGiven;
    ExactlyOne(args, "paper_id", "P-SEARCH-1");
  }

  lemma FoundMaterialStage(args: Object)
    ensures var t := MultiMaterialSearchCurrent;
      RightArguments(t, StateBefore(t, 1), Ops(t)[1], args) <==> AllGiven(args, Stages(t)[1].needs)
  {
    LiteralsVisible();
    hide EqText, HasText, Contains, Visible, Given, AllGiven;
    ExactlyOne(args, "material_id", "MAT-SEARCH-1");
  }

  lemma ArtifactStage(args: Object)
    ensures var t := MultiRetrieveExport;
      RightArguments(t, StateBefore(t, 1), Ops(t)[1], args) <==> AllGiven(args, Stages(t)[1].needs)
  {
    LiteralsVisible();
    hide EqText, HasText, Contains, Visible, Given, AllGiven;
    ExactlyOne(args, "artifact_id", "ART-MAT-7");
  }

  /** The operations with rules of their own. */
  lemma SpecialStage(t: Task, k: nat, args: Object)
    requires k < |Ops(t)| && k < |Stages(t)| && ExactRule(t, Ops(t)[k]).None?
    requires Ops(t)[k] in {MessagingSend, MessagingShare, CreditsCreate, InventoryList}
    ensures RightArguments(t, StateBefore(t, k), Ops(t)[k], args) <==> AllGiven(args, Stages(t)[k].needs)
  {
    SendStage(args);
    ShareStage(args);
    CreditStage(args);
    ShareNewStage(args);
    SendNewStage(args);
    ListStage(args);
    hide AllGiven, RightArguments, StateBefore, Stages;
  }

  /** The chained operations. */
  lemma ChainStage(t: Task, args: Object)
    requires t in {MultiPaperSearchRetrieve, MultiMaterialSearchCurrent, MultiRetrieveExport}
    ensures |Ops(t)| == |Stages(t)| == 2
    ensures RightArguments(t, StateBefore(t, 1), Ops(t)[1], args) <==> AllGiven(args, Stages(t)[1].needs)
  {
    StageRoutes(t);
    FoundPaperStage(args);
    FoundMaterialStage(args);
    ArtifactStage(args);
    hide AllGiven, RightArguments, StateBefore, Stages, Route;
  }

  /** Which arguments each required operation accepts in the state the earlier one stored. */
  lemma StageExactly(t: Task, k: nat, args: Object)
    requires k < |Ops(t)|
    ensures |Stages(t)| == |Ops(t)| && Stages(t)[k].route == Route(Ops(t)[k])
    ensures RightArguments(t, StateBefore(t, k), Ops(t)[k], args) <==> AllGiven(args, Stages(t)[k].needs)
  {
    hide *;
    StageRoutes(t);
    if ExactRule(t, Ops(t)[k]).Some? {
      RuleStage(t, k, args);
    } else if Ops(t)[k].PapersSearch? || Ops(t)[k].MaterialsSearch? {
      SearchStage(t, k, args);
    } else if Ops(t)[k] in {MessagingSend, MessagingShare, CreditsCreate, InventoryList} {
      SpecialStage(t, k, args);
    } else {
      StageKinds(t, k);
      ChainStage(t, args);
    }
  }

  /** Every operation is of one of the four kinds. */
  lemma StageKinds(t: Task, k: nat)
    requires k < |Ops(t)|
    requires ExactRule(t, Ops(t)[k]).None? && !Ops(t)[k].PapersSearch? && !Ops(t)[k].MaterialsSearch?
    requires Ops(t)[k] !in {MessagingSend, MessagingShare, CreditsCreate, InventoryList}
    ensures k == 1 && t in {MultiPaperSearchRetrieve, MultiMaterialSearchCurrent, MultiRetrieveExport}
  {
  }

  /** A call to the operation that is due, offered, allowed and fitting its schema: the suite
      task goes on exactly when the call gives what the stage needs, the identifiers the
      earlier operation returned among them. */
  lemma SuiteDecides(reg: Catalog, t: Task, r: Run, call: Call)
    requires Provides(reg) && r.progress < |Ops(t)| && r.state == StateBefore(t, r.progress)
    requires |Stages(t)| == |Ops(t)| ==> call.route == Stages(t)[r.progress].route
    requires call.available && call.allowed && SchemaFault(Spec(Ops(t)[r.progress]), call.arguments) == None
    ensures |Stages(t)| == |Ops(t)|
    ensures Perform(Suite(reg, t), r, call).progress
         == r.progress + if AllGiven(call.arguments, Stages(t)[r.progress].needs) then 1 else 0
  {
    var op := Ops(t)[r.progress];
    assert Resolve(reg, Route(op)) == Some(Spec(op));
    hide *;
    StageExactly(t, r.progress, call.arguments);
    DueCall(reg, t, r, call);
  }

  /** A call to the operation that is due goes on exactly when its arguments are right. */
  lemma DueCall(reg: Catalog, t: Task, r: Run, call: Call)
    requires r.progress < |Ops(t)| && r.state == StateBefore(t, r.progress)
    requires call.route == Route(Ops(t)[r.progress]) && Resolve(reg, call.route) == Some(Spec(Ops(t)[r.progress]))
    requires call.available && call.allowed && SchemaFault(Spec(Ops(t)[r.progress]), call.arguments) == None
    ensures Perform(Suite(reg, t), r, call).progress
         == r.progress + if RightArguments(t, r.state, Ops(t)[r.progress], call.arguments) then 1 else 0
  {
    hide RightArguments, SchemaFault, Resolve, StoredBy, ShownBy, Route, Spec, Ops, StateBefore;
    OpOfRoute(Ops(t)[r.progress]);
    hide OpOf;
  }
}
