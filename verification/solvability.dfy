/** Every task the builders produce can be finished: each argument a step needs is fixed by
    its rule or was written by an earlier step. */
module Solvability {
  import opened Wrappers
  import opened Text
  import opened JsonValues
  import opened Registry
  import opened Frozen
  import opened BaseCatalog
  import opened Builders
  import opened EpisodeInvariants
  import opened EpisodeTheorems

  // ---- Valid arguments --------------------------------------------------------------------

  lemma OneTextValid(op: Op, key: string, v: string)
    requires BaseCatalog.Parameters(op) == Text1(key) && !Blank(v)
    ensures SchemaFault(Spec(op), map[key := Str(v)]).None?
  {
    SchemaFaultMeaning(Spec(op), map[key := Str(v)]);
    assert Spec(op).parameters[0].name == key;
  }

  lemma TwoTextsValid(op: Op, a: string, b: string, va: string, vb: string)
    requires BaseCatalog.Parameters(op) == Text2(a, b) && a != b && !Blank(va) && !Blank(vb)
    ensures SchemaFault(Spec(op), map[a := Str(va), b := Str(vb)]).None?
  {
    SchemaFaultMeaning(Spec(op), map[a := Str(va), b := Str(vb)]);
    assert Spec(op).parameters[0].name == a && Spec(op).parameters[1].name == b;
  }

  lemma AmountValid(n: int)
    ensures SchemaFault(Spec(CreditsCreate), map["amount" := Int(n)]).None?
  {
    SchemaFaultMeaning(Spec(CreditsCreate), map["amount" := Int(n)]);
    assert Spec(CreditsCreate).parameters[0].name == "amount";
  }

  lemma LabelVisible(prefix: string, rest: string)
    requires prefix != "" && !IsSpace(prefix[0])
    ensures !Blank(prefix + rest)
  {
    assert (prefix + rest)[0] == prefix[0];
  }

  /** A key the previous step showed is in the state. */
  lemma PreviousWrites(steps: seq<Step>, i: nat, key: string)
    requires 0 < i <= |steps| && key in steps[i - 1].observation && key !in {"status", "error"}
    ensures key in Merged(steps[..i]) && Merged(steps[..i])[key] == steps[i - 1].observation[key]
  {
    assert steps[..i][..i - 1] == steps[..i - 1];
    assert steps[..i][i - 1] == steps[i - 1];
  }

  // ---- One step ----------------------------------------------------------------------------

  ghost predicate PlainObservation(observation: Object) {
    "status" in observation && observation["status"] == OK && "" !in observation
  }

  /** The shape every built step has: a base route, rules, a plain observation, and no
      fault or the transient one. */
  ghost predicate StepIs(step: Step, op: Op, rules: map<string, Rule>) {
    && step.route == Route(op) && step.rules == Some(rules)
    && step.failOnce in {"", "transient_backend"}
    && PlainObservation(step.observation)
  }

  /** The step's observation shows this identifier. */
  ghost predicate Shows(step: Step, key: string, v: string) {
    key in step.observation && step.observation[key] == Str(v) && !Blank(v) && key !in {"status", "error"}
  }

  ghost predicate Done(w: World, i: nat) {
    i < |w.task.steps| && Doable(w, i) && w.task.steps[i].route in RouteIds(w.registry)
  }

  lemma StepDoable(w: World, i: nat, op: Op, rules: map<string, Rule>, args: Object)
    requires Provides(w.registry) && i < |w.task.steps| && StepIs(w.task.steps[i], op, rules)
    requires SchemaFault(Spec(op), args).None?
    requires ArgumentsValid(w.render, w.task.steps[i], args, Merged(w.task.steps[..i]))
    ensures Done(w, i)
  {
    RouteCallable(op);
    NamedByHead("transient_backend");
    hide Spec, Route, SchemaFault, Callable;
    assert Resolve(w.registry, Route(op)) == Some(Spec(op));
    assert Fits(w, i, args);
  }

  /** One text argument, fixed by its rule. */
  lemma EqualsStep(w: World, i: nat, op: Op, key: string, v: string)
    requires Provides(w.registry) && i < |w.task.steps|
    requires StepIs(w.task.steps[i], op, map[key := Equals(Str(v))])
    requires BaseCatalog.Parameters(op) == Text1(key) && !Blank(v)
    ensures Done(w, i)
  {
    OneTextValid(op, key, v);
    StepDoable(w, i, op, map[key := Equals(Str(v))], map[key := Str(v)]);
  }

  lemma AnyTextStep(w: World, i: nat, op: Op, key: string)
    requires Provides(w.registry) && i < |w.task.steps|
    requires StepIs(w.task.steps[i], op, map[key := ANY_TEXT]) && BaseCatalog.Parameters(op) == Text1(key)
    ensures Done(w, i)
  {
    FixedTextsVisible();
    OneTextValid(op, key, "x");
    StepDoable(w, i, op, map[key := ANY_TEXT], map[key := Str("x")]);
  }

  /** One text argument, an identifier the previous step returned. */
  lemma ChainedStep(w: World, i: nat, op: Op, key: string, v: string)
    requires Provides(w.registry) && 0 < i < |w.task.steps|
    requires StepIs(w.task.steps[i], op, map[key := FromState(key)]) && BaseCatalog.Parameters(op) == Text1(key)
    requires Shows(w.task.steps[i - 1], key, v)
    ensures Done(w, i)
  {
    hide Merged, Provides, Blank, Route, Spec, SchemaFault, Done, StepIs, BaseCatalog.Parameters, ArgumentsValid;
    ChainedValid(w, i, op, key, v);
    OneTextValid(op, key, v);
    StepDoable(w, i, op, map[key := FromState(key)], map[key := Str(v)]);
  }

  lemma ChainedValid(w: World, i: nat, op: Op, key: string, v: string)
    requires 0 < i < |w.task.steps| && Shows(w.task.steps[i - 1], key, v)
    requires StepIs(w.task.steps[i], op, map[key := FromState(key)])
    ensures ArgumentsValid(w.render, w.task.steps[i], map[key := Str(v)], Merged(w.task.steps[..i]))
    ensures !Blank(v)
  {
    PreviousWrites(w.task.steps, i, key);
    hide Merged, Blank, Route, PlainObservation;
  }

  lemma AmountStep(w: World, i: nat, n: int)
    requires Provides(w.registry) && i < |w.task.steps|
    requires StepIs(w.task.steps[i], CreditsCreate, map["amount" := Equals(Int(n))])
    ensures Done(w, i)
  {
    AmountValid(n);
    StepDoable(w, i, CreditsCreate, map["amount" := Equals(Int(n))], map["amount" := Int(n)]);
  }

  /** Two text arguments, each meeting its own rule in the state before the step. */
  lemma TwoTextStep(w: World, i: nat, op: Op, a: string, b: string, ra: Rule, rb: Rule, va: string, vb: string)
    requires Provides(w.registry) && i < |w.task.steps| && a != b && !Blank(va) && !Blank(vb)
    requires StepIs(w.task.steps[i], op, map[a := ra, b := rb]) && BaseCatalog.Parameters(op) == Text2(a, b)
    requires RuleValid(w.render, ra, Str(va), Merged(w.task.steps[..i]))
    requires RuleValid(w.render, rb, Str(vb), Merged(w.task.steps[..i]))
    ensures Done(w, i)
  {
    TwoTextsValid(op, a, b, va, vb);
    hide Merged, Provides, Blank, Route, Spec, SchemaFault, Done, RuleValid, PlainObservation, BaseCatalog.Parameters;
    StepDoable(w, i, op, map[a := ra, b := rb], map[a := Str(va), b := Str(vb)]);
  }

  lemma ShareStep(w: World, i: nat, artifact: string)
    requires Provides(w.registry) && 0 < i < |w.task.steps|
    requires StepIs(w.task.steps[i], MessagingShare,
      map["artifact_id" := FromState("artifact_id"), "recipient" := Equals(Str(RECIPIENT))])
    requires Shows(w.task.steps[i - 1], "artifact_id", artifact)
    ensures Done(w, i)
  {
    FixedTextsVisible();
    PreviousWrites(w.task.steps, i, "artifact_id");
    hide Merged, Provides, Blank, Route, Done, StepIs;
    TwoTextStep(w, i, MessagingShare, "artifact_id", "recipient", FromState("artifact_id"),
      Equals(Str(RECIPIENT)), artifact, RECIPIENT);
  }

  lemma MentionStep(w: World, i: nat, item: string)
    requires Provides(w.registry) && 0 < i < |w.task.steps|
    requires StepIs(w.task.steps[i], MessagingSend,
      map["recipient" := Equals(Str(RECIPIENT)), "message" := Mentions("item_id")])
    requires Shows(w.task.steps[i - 1], "item_id", item)
    ensures Done(w, i)
  {
    FixedTextsVisible();
    PreviousWrites(w.task.steps, i, "item_id");
    ContainsSelf(item);
    hide Merged, Provides, Blank, Route, Done, StepIs, Contains;
    TwoTextStep(w, i, MessagingSend, "recipient", "message", Equals(Str(RECIPIENT)),
      Mentions("item_id"), RECIPIENT, item);
  }

  lemma AnyMessageStep(w: World, i: nat)
    requires Provides(w.registry) && i < |w.task.steps|
    requires StepIs(w.task.steps[i], MessagingSend,
      map["recipient" := Equals(Str(RECIPIENT)), "message" := ANY_TEXT])
    ensures Done(w, i)
  {
    FixedTextsVisible();
    assert RuleValid(w.render, ANY_TEXT, Str("x"), Merged(w.task.steps[..i]));
    hide Merged, Provides, Route, Done, StepIs;
    TwoTextStep(w, i, MessagingSend, "recipient", "message", Equals(Str(RECIPIENT)), ANY_TEXT, RECIPIENT, "x");
  }

  lemma FixedTextsVisible()
    ensures !Blank(RECIPIENT) && !Blank("x")
  {
    LabelVisible(RECIPIENT, "");
    assert RECIPIENT + "" == RECIPIENT;
    assert !IsSpace("x"[0]);
  }

  // ---- The shape of each built step -------------------------------------------------------------

  ghost predicate KnownFault(fault: string) {
    fault in {"", "transient_backend"}
  }

  lemma SearchShapes(index: nat, text: string, fault: string)
    requires KnownFault(fault)
    ensures StepIs(MaterialSearch(index, text, fault), MaterialsSearch, map["query" := ANY_TEXT])
    ensures Shows(MaterialSearch(index, text, fault), "material_id", Id("MAT-SEARCH-H", index))
    ensures StepIs(PaperSearch(index, fault), PapersSearch, map["query" := ANY_TEXT])
    ensures Shows(PaperSearch(index, fault), "paper_id", Id("P-SEARCH-H", index))
  {
    LabelVisible("MAT-SEARCH-H", Pad4(index));
    LabelVisible("P-SEARCH-H", Pad4(index));
    hide Route, Pad4, Digits;
  }

  lemma PaperShapes(index: nat, text: string, fault: string)
    requires KnownFault(fault)
    ensures StepIs(PaperRetrieve(index, text, fault), PapersRetrieve, map["paper_id" := FromState("paper_id")])
    ensures Shows(PaperRetrieve(index, text, fault), "paper_id", Id("P-SEARCH-H", index))
    ensures StepIs(PaperSummary(index), PapersSummarize, map["paper_id" := FromState("paper_id")])
  {
    LabelVisible("P-SEARCH-H", Pad4(index));
    hide Route, Pad4, Digits;
  }

  lemma RecordShape(rule: Rule, material: string, formula: string, index: nat, fault: string)
    requires KnownFault(fault)
    ensures var step := MaterialRecord(rule, material, formula, index, fault);
      && StepIs(step, MaterialsRetrieve, map["material_id" := rule])
      && Shows(step, "artifact_id", Id("ART-MAT-H", index))
  {
    LabelVisible("ART-MAT-H", Pad4(index));
    hide Route, Pad4, Digits;
  }

  lemma ExportShape(artifact: string, fault: string)
    requires KnownFault(fault)
    ensures StepIs(Export(artifact, fault), ExportsExport, map["artifact_id" := FromState("artifact_id")])
  {
    hide Route;
  }

  lemma ValueShapes(rule: Rule, value: real, fault: string, op: Op, index: nat, series: seq<Json>)
    requires KnownFault(fault)
    ensures StepIs(ModulusOf(rule, value, fault), MaterialsCurrent, map["material_id" := rule])
    ensures StepIs(SeriesOf(op, index, series), op, map["material_id" := Equals(Str(Id("MAT-H", index)))])
  {
    hide Route, Id;
  }

  lemma CreditShapes(index: nat, fault: string)
    requires KnownFault(fault)
    ensures StepIs(CreditRequest(index, fault), CreditsCreate, map["amount" := Equals(Int(100 + index % 37))])
    ensures Shows(CreditRequest(index, fault), "artifact_id", Id("ART-CREDIT-H", index))
    ensures StepIs(Share(index), MessagingShare,
      map["artifact_id" := FromState("artifact_id"), "recipient" := Equals(Str(RECIPIENT))])
  {
    LabelVisible("ART-CREDIT-H", Pad4(index));
    hide Route, Pad4;
  }

  lemma ItemShapes(index: nat, fault: string)
    requires KnownFault(fault)
    ensures StepIs(NewItem(index, fault), InventoryCreate,
      map["item_name" := Equals(Str(Id("sample-holder-", index)))])
    ensures Shows(NewItem(index, fault), "item_id", Id("INV-NEW-H", index))
    ensures !Blank(Id("sample-holder-", index))
  {
    LabelVisible("INV-NEW-H", Pad4(index));
    LabelVisible("sample-holder-", Pad4(index));
    hide Route, Pad4;
  }

  lemma MessageShape(rule: Rule, messageId: string)
    ensures StepIs(SendMessage(rule, messageId), MessagingSend,
      map["recipient" := Equals(Str(RECIPIENT)), "message" := rule])
  {
    hide Route;
  }

  lemma DirectShape(op: DirectOp, index: nat, fault: string)
    requires KnownFault(fault)
    ensures StepIs(DirectStep(op, index, fault), op, map[DirectKey(op) := Equals(Str(DirectTarget(op, index)))])
    ensures !Blank(DirectTarget(op, index))
    ensures BaseCatalog.Parameters(op) == Text1(DirectKey(op))
  {
    LabelVisible("P-H", Pad4(index));
    LabelVisible("INV-H", Pad4(index));
    LabelVisible("RT-H", Pad4(index));
    LabelVisible("MAT-H", Pad4(index));
    hide Route, Pad4, Digits;
    assert PlainObservation(DirectObservation(op, index)) by { hide Id, DirectTarget; }
  }

  lemma MaterialVisible(index: nat)
    ensures !Blank(Id("MAT-H", index))
  {
    LabelVisible("MAT-H", Pad4(index));
  }

  // ---- Every scenario -----------------------------------------------------------------------------

  ghost predicate AllDone(w: World) {
    forall i | 0 <= i < |w.task.steps| :: Done(w, i)
  }

  /** Parameter lists of the chained operations. */
  lemma ChainedParameters()
    ensures BaseCatalog.Parameters(MaterialsSearch) == Text1("query")
    ensures BaseCatalog.Parameters(PapersSearch) == Text1("query")
    ensures BaseCatalog.Parameters(MaterialsCurrent) == Text1("material_id")
    ensures BaseCatalog.Parameters(MaterialsHistory) == Text1("material_id")
    ensures BaseCatalog.Parameters(MaterialsForecast) == Text1("material_id")
    ensures BaseCatalog.Parameters(MaterialsRetrieve) == Text1("material_id")
    ensures BaseCatalog.Parameters(PapersRetrieve) == Text1("paper_id")
    ensures BaseCatalog.Parameters(PapersSummarize) == Text1("paper_id")
    ensures BaseCatalog.Parameters(ExportsExport) == Text1("artifact_id")
    ensures BaseCatalog.Parameters(InventoryCreate) == Text1("item_name")
    ensures BaseCatalog.Parameters(RuntimeRestart) == Text1("runtime_id")
  {
  }

  lemma TwoDone(w: World)
    requires |w.task.steps| == 2 && Done(w, 0) && Done(w, 1)
    ensures AllDone(w)
  {
    hide Done;
  }

  lemma ThreeDone(w: World)
    requires |w.task.steps| == 3 && Done(w, 0) && Done(w, 1) && Done(w, 2)
    ensures AllDone(w)
  {
    hide Done;
  }

  lemma SearchThenCurrentDone(w: World, index: nat, fault: string)
    requires Provides(w.registry) && w.task.steps == SearchThenCurrent(index, fault) && KnownFault(fault)
    ensures AllDone(w)
  {
    hide StepIs, Shows, MaterialSearch, ModulusOf, Digits, Id, Provides, Done;
    SearchShapes(index, "X" + Digits(index) + "Y", fault);
    ValueShapes(FromState("material_id"), ValueOf(110.0, index, 41), "", MaterialsHistory, index, []);
    assert |w.task.steps| == 2;
    assert w.task.steps[0] == MaterialSearch(index, "X" + Digits(index) + "Y", fault);
    assert w.task.steps[1] == ModulusOf(FromState("material_id"), ValueOf(110.0, index, 41), "");
    ChainedParameters();
    hide *;
    AnyTextStep(w, 0, MaterialsSearch, "query");
    ChainedStep(w, 1, MaterialsCurrent, "material_id", Id("MAT-SEARCH-H", index));
    TwoDone(w);
  }

  lemma SearchThenRetrieveDone(w: World, index: nat, fault: string)
    requires Provides(w.registry) && w.task.steps == SearchThenRetrieve(index, fault) && KnownFault(fault)
    ensures AllDone(w)
  {
    hide StepIs, Shows, PaperSearch, PaperRetrieve, Digits, Id, Provides, Done;
    SearchShapes(index, "", fault);
    PaperShapes(index, "Independent deterministic evidence " + Digits(index) + ".", "");
    assert |w.task.steps| == 2;
    assert w.task.steps[0] == PaperSearch(index, fault);
    assert w.task.steps[1] == PaperRetrieve(index, "Independent deterministic evidence " + Digits(index) + ".", "");
    ChainedParameters();
    hide *;
    AnyTextStep(w, 0, PapersSearch, "query");
    ChainedStep(w, 1, PapersRetrieve, "paper_id", Id("P-SEARCH-H", index));
    TwoDone(w);
  }

  lemma SearchRetrieveSummarizeDone(w: World, index: nat, fault: string)
    requires Provides(w.registry) && w.task.steps == SearchRetrieveSummarize(index, fault) && KnownFault(fault)
    ensures AllDone(w)
  {
    hide StepIs, Shows, PaperSearch, PaperRetrieve, PaperSummary, Digits, Id, Provides, Done;
    SearchShapes(index, "", "");
    PaperShapes(index, "Independent deterministic paper content " + Digits(index) + ".", fault);
    assert |w.task.steps| == 3;
    assert w.task.steps[0] == PaperSearch(index, "");
    var content := "Independent deterministic paper content " + Digits(index) + ".";
    assert w.task.steps[1] == PaperRetrieve(index, content, fault);
    assert w.task.steps[2] == PaperSummary(index);
    ChainedParameters();
    hide *;
    AnyTextStep(w, 0, PapersSearch, "query");
    ChainedStep(w, 1, PapersRetrieve, "paper_id", Id("P-SEARCH-H", index));
    ChainedStep(w, 2, PapersSummarize, "paper_id", Id("P-SEARCH-H", index));
    ThreeDone(w);
  }

  lemma SearchRetrieveExportDone(w: World, index: nat, fault: string)
    requires Provides(w.registry) && w.task.steps == SearchRetrieveExport(index, fault) && KnownFault(fault)
    ensures AllDone(w)
  {
    hide StepIs, Shows, MaterialSearch, MaterialRecord, Export, Digits, Id, Provides, Done;
    var formula := "M" + Digits(index) + "N";
    SearchShapes(index, formula, "");
    RecordShape(FromState("material_id"), Id("MAT-SEARCH-H", index), formula, index, "");
    ExportShape(Id("ART-MAT-H", index), fault);
    assert |w.task.steps| == 3;
    assert w.task.steps[0] == MaterialSearch(index, formula, "");
    assert w.task.steps[1] == MaterialRecord(FromState("material_id"), Id("MAT-SEARCH-H", index), formula, index, "");
    assert w.task.steps[2] == Export(Id("ART-MAT-H", index), fault);
    ChainedParameters();
    hide *;
    AnyTextStep(w, 0, MaterialsSearch, "query");
    ChainedStep(w, 1, MaterialsRetrieve, "material_id", Id("MAT-SEARCH-H", index));
    ChainedStep(w, 2, ExportsExport, "artifact_id", Id("ART-MAT-H", index));
    ThreeDone(w);
  }

  lemma RetrieveThenExportDone(w: World, index: nat, fault: string)
    requires Provides(w.registry) && w.task.steps == RetrieveThenExport(index, fault) && KnownFault(fault)
    ensures AllDone(w)
  {
    hide StepIs, Shows, MaterialRecord, Export, Digits, Provides, Done;
    var material := Id("MAT-H", index);
    MaterialVisible(index);
    RecordShape(Equals(Str(material)), material, "Q" + Digits(index) + "R", index, fault);
    ExportShape(Id("ART-MAT-H", index), "");
    assert |w.task.steps| == 2;
    assert w.task.steps[0] == MaterialRecord(Equals(Str(material)), material, "Q" + Digits(index) + "R", index, fault);
    assert w.task.steps[1] == Export(Id("ART-MAT-H", index), "");
    ChainedParameters();
    hide *;
    EqualsStep(w, 0, MaterialsRetrieve, "material_id", material);
    ChainedStep(w, 1, ExportsExport, "artifact_id", Id("ART-MAT-H", index));
    TwoDone(w);
  }

  lemma CreditDone(w: World, index: nat, fault: string)
    requires Provides(w.registry) && w.task.steps == [CreditRequest(index, fault), Share(index)]
    requires KnownFault(fault)
    ensures AllDone(w)
  {
    hide *;
    CreditShapes(index, fault);
    ChainedParameters();
    AmountStep(w, 0, 100 + index % 37);
    ShareStep(w, 1, Id("ART-CREDIT-H", index));
    TwoDone(w);
  }

  lemma InventoryDone(w: World, index: nat, fault: string)
    requires Provides(w.registry) && KnownFault(fault)
    requires w.task.steps == [NewItem(index, fault), SendMessage(Mentions("item_id"), Id("MSG-H", index))]
    ensures AllDone(w)
  {
    ItemShapes(index, fault);
    MessageShape(Mentions("item_id"), Id("MSG-H", index));
    ChainedParameters();
    hide *;
    EqualsStep(w, 0, InventoryCreate, "item_name", Id("sample-holder-", index));
    MentionStep(w, 1, Id("INV-NEW-H", index));
    TwoDone(w);
  }

  lemma CurrentDone(w: World, op: Op, index: nat, series: seq<Json>, fault: string)
    requires Provides(w.registry) && w.task.steps == CurrentThenSeries(op, index, series, fault) && KnownFault(fault)
    requires op.MaterialsHistory? || op.MaterialsForecast?
    ensures AllDone(w)
  {
    var material := Id("MAT-H", index);
    MaterialVisible(index);
    ValueShapes(Equals(Str(material)), ValueOf(115.0, index, 31), fault, op, index, series);
    assert |w.task.steps| == 2;
    assert w.task.steps[0] == ModulusOf(Equals(Str(material)), ValueOf(115.0, index, 31), fault);
    assert w.task.steps[1] == SeriesOf(op, index, series);
    ChainedParameters();
    hide *;
    EqualsStep(w, 0, MaterialsCurrent, "material_id", material);
    EqualsStep(w, 1, op, "material_id", material);
    TwoDone(w);
  }

  lemma DirectDone(w: World, op: DirectOp, index: nat, fault: string)
    requires Provides(w.registry) && w.task.steps == [DirectStep(op, index, fault)] && KnownFault(fault)
    ensures AllDone(w)
  {
    DirectShape(op, index, fault);
    hide Provides, Done, StepIs, DirectStep, DirectTarget, DirectKey, Blank, BaseCatalog.Parameters;
    EqualsStep(w, 0, op, DirectKey(op), DirectTarget(op, index));
  }

  lemma ScenarioDone(w: World, scenario: Scenario, index: nat, failOnce: bool)
    requires Provides(w.registry) && w.task.steps == ScenarioSteps(scenario, index, failOnce)
    ensures AllDone(w)
  {
    hide Provides, AllDone, SearchThenCurrent, SearchThenRetrieve, SearchRetrieveSummarize,
      SearchRetrieveExport, RetrieveThenExport, CreditRequest, Share, NewItem, SendMessage, CurrentThenSeries,
      History, Forecast, DirectStep, Id;
    var fault := FaultText(failOnce);
    match scenario {
      case MaterialSearchCurrent => SearchThenCurrentDone(w, index, fault);
      case PaperSearchRetrieve => SearchThenRetrieveDone(w, index, fault);
      case PaperSearchRetrieveSummary => SearchRetrieveSummarizeDone(w, index, fault);
      case MaterialSearchRetrieveExport => SearchRetrieveExportDone(w, index, fault);
      case MaterialRetrieveExport => RetrieveThenExportDone(w, index, fault);
      case CreditCreateShare => CreditDone(w, index, fault);
      case InventoryCreateSend => InventoryDone(w, index, fault);
      case CurrentHistory => CurrentDone(w, MaterialsHistory, index, History(index), fault);
      case CurrentForecast => CurrentDone(w, MaterialsForecast, index, Forecast(index), fault);
      case Direct(op) => DirectDone(w, op, index, fault);
    }
  }

  // ---- The final-answer corpus -----------------------------------------------------------------------

  lemma FinalShapes(index: nat, source: Json)
    ensures StepIs(FinalRecord(index, source), MaterialsRetrieve,
      map["material_id" := Equals(Str(Id("MAT-H", index)))])
    ensures Shows(FinalRecord(index, source), "artifact_id", Id("ART-F", index))
    ensures StepIs(FinalFile(index, source), ExportsExport, map["artifact_id" := FromState("artifact_id")])
  {
    LabelVisible("ART-F", Pad4(index));
    hide Route, Pad4;
  }

  lemma FinalPaperShape(index: nat, source: Json)
    ensures StepIs(FinalPaper(index, source), PapersRetrieve, map["paper_id" := Equals(Str(Id("P-H", index)))])
    ensures !Blank(Id("P-H", index))
  {
    LabelVisible("P-H", Pad4(index));
    hide Route, Pad4, Digits;
  }

  lemma FinalValueShape(op: Op, index: nat, key: string, value: Json, source: Json)
    requires key != "" && key != "status"
    ensures var step := FinalValue(op, index, key, value, source);
      && StepIs(step, op, map["material_id" := Equals(Str(Id("MAT-H", index)))])
      && StepIs(Noted(step), op, map["material_id" := Equals(Str(Id("MAT-H", index)))])
  {
    hide Route, Id;
  }

  lemma RestartShape(index: nat)
    ensures StepIs(Restart(index), RuntimeRestart, map["runtime_id" := Equals(Str(Id("RT-H", index)))])
    ensures !Blank(Id("RT-H", index))
  {
    LabelVisible("RT-H", Pad4(index));
    hide Route, Pad4;
  }

  lemma ExportFinalsDone(w: World, stratum: FinalStratum, index: nat)
    requires Provides(w.registry) && w.task.steps == FinalSteps(stratum, index)
    requires stratum.TransformOrExport? || stratum.CorrectiveExpansion?
    ensures AllDone(w)
  {
    FinalShapes(index, Str(Id("SRC-F", index) + "-A"));
    FinalShapes(index, Str(Id("SRC-F", index) + "-B"));
    MaterialVisible(index);
    RestartShape(index);
    MessageShape(ANY_TEXT, Id("MSG-F", index));
    hide Provides, Done, StepIs, Shows, FinalRecord, FinalFile, Restart, SendMessage, Id, Blank;
    EqualsStep(w, 0, MaterialsRetrieve, "material_id", Id("MAT-H", index));
    ChainedStep(w, 1, ExportsExport, "artifact_id", Id("ART-F", index));
    if stratum.CorrectiveExpansion? {
      EqualsStep(w, 2, RuntimeRestart, "runtime_id", Id("RT-H", index));
      AnyMessageStep(w, 3);
    }
  }

  lemma ValueFinalsDone(w: World, stratum: FinalStratum, index: nat)
    requires Provides(w.registry) && w.task.steps == FinalSteps(stratum, index)
    requires stratum.SingleProperty? || stratum.MultiSource? || stratum.Contradiction?
    ensures AllDone(w)
  {
    var a, b, material := Str(Id("SRC-F", index) + "-A"), Str(Id("SRC-F", index) + "-B"), Id("MAT-H", index);
    MaterialVisible(index);
    hide Provides, Done, StepIs, FinalValue, Noted, Id, Blank;
    match stratum {
      case SingleProperty =>
        FinalValueShape(MaterialsCurrent, index, "youngs_modulus", Num(ValueOf(130.0, index, 23)), a);
        EqualsStep(w, 0, MaterialsCurrent, "material_id", material);
      case MultiSource =>
        var current := ValueOf(120.0, index, 19);
        FinalValueShape(MaterialsCurrent, index, "current_youngs_modulus", Num(current), a);
        FinalValueShape(MaterialsHistory, index, "historical_youngs_modulus",
          Arr([Num(current - 2.0), Num(current - 1.0), Num(current)]), b);
        EqualsStep(w, 0, MaterialsCurrent, "material_id", material);
        EqualsStep(w, 1, MaterialsHistory, "material_id", material);
      case Contradiction =>
        var first := ValueOf(140.0, index, 11);
        FinalValueShape(MaterialsForecast, index, "forecast_youngs_modulus",
          Arr([Num(first), Num(first + 1.0)]), a);
        EqualsStep(w, 0, MaterialsForecast, "material_id", material);
    }
  }

  lemma PaperFinalDone(w: World, index: nat)
    requires Provides(w.registry) && w.task.steps == FinalSteps(LiteratureFact, index)
    ensures AllDone(w)
  {
    FinalPaperShape(index, Str(Id("SRC-F", index) + "-A"));
    hide Provides, Done, StepIs, FinalPaper, Id, Blank;
    EqualsStep(w, 0, PapersRetrieve, "paper_id", Id("P-H", index));
  }

  lemma FinalDone(w: World, stratum: FinalStratum, index: nat)
    requires Provides(w.registry) && w.task.steps == FinalSteps(stratum, index)
    ensures AllDone(w)
  {
    if stratum.LiteratureFact? {
      PaperFinalDone(w, index);
    } else if stratum.TransformOrExport? || stratum.CorrectiveExpansion? {
      ExportFinalsDone(w, stratum, index);
    } else {
      ValueFinalsDone(w, stratum, index);
    }
    hide AllDone, Provides, FinalSteps;
  }
}
