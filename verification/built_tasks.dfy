/** What every built task asks of an agent, said in literal routes and argument values. */
module BuiltTasks {
  import opened Wrappers
  import opened Text
  import opened JsonValues
  import opened Registry
  import opened Frozen
  import opened BaseCatalog
  import opened Builders
  import opened Episodes
  import opened Corpora
  import opened TurnCount
  import opened StateAwareCount
  import opened ArgumentRules

  // ---- Plans ------------------------------------------------------------------------------------

  /** What one argument must be: this text, a visible text, this number, or a value whose
      text holds this one. */
  datatype Demand = Exactly(text: string) | Visible | Amount(i: int) | Holding(text: string)

  /** One step of a task: a route, and a demand on each of its arguments. */
  datatype Planned = Planned(route: string, demands: map<string, Demand>)

  ghost predicate Meets(render: Renderer, d: Demand, v: Json) {
    match d
    case Exactly(s) => v == Str(s)
    case Visible => VisibleText(v)
    case Amount(i) => v == Int(i) || v == Num(i as real)
    case Holding(s) => Holds(render(v), s)
  }

  /** Once the earlier steps are consumed, a judged call of step `i` is right exactly when
      its arguments meet the demands. */
  ghost predicate Asks(w: World, i: nat, demands: map<string, Demand>)
    requires i < |w.task.steps|
  {
    forall core: Core, call | core.progress == i && core.state == Merged(w.task.steps[..i]) && Judged(w, core, call) ::
      AttemptAt(w, core, call).semanticValid <==>
        forall k | k in demands :: k in call.arguments && Meets(w.render, demands[k], call.arguments[k])
  }

  /** The task's steps are these, in order: the same routes, and the same demands whatever
      the registry. */
  ghost predicate Follows(task: Task, plan: seq<Planned>) {
    && task.supported && |task.steps| == |plan|
    && (forall i | 0 <= i < |plan| :: task.steps[i].route == plan[i].route)
    && (forall w: World, i | w.task == task && 0 <= i < |plan| :: Asks(w, i, plan[i].demands))
  }

  // ---- From rules to demands --------------------------------------------------------------------

  /** In this state the rule is the demand. */
  ghost predicate Realizes(rule: Rule, d: Demand, state: Object) {
    match d
    case Exactly(s) => rule == Equals(Str(s)) || exists k | k in state :: rule == FromState(k) && state[k] == Str(s)
    case Visible => rule == ANY_TEXT
    case Amount(i) => rule == Equals(Int(i))
    case Holding(s) => exists k | k in state :: rule == Mentions(k) && state[k] == Str(s)
  }

  lemma RealizedMeets(render: Renderer, rule: Rule, d: Demand, state: Object, v: Json)
    requires Realizes(rule, d, state)
    ensures Accepted(render, rule, v, state) <==> Meets(render, d, v)
  {
  }

  /** A step whose rules realize the demands asks for them. */
  ghost predicate Realized(step: Step, demands: map<string, Demand>, state: Object) {
    && step.rules.Some? && step.rules.value.Keys == demands.Keys
    && forall k | k in demands :: Realizes(step.rules.value[k], demands[k], state)
  }

  lemma RealizedAsks(w: World, i: nat, demands: map<string, Demand>)
    requires i < |w.task.steps| && Realized(w.task.steps[i], demands, Merged(w.task.steps[..i]))
    ensures Asks(w, i, demands)
  {
    var state := Merged(w.task.steps[..i]);
    forall core: Core, call | core.progress == i && core.state == state && Judged(w, core, call)
      ensures AttemptAt(w, core, call).semanticValid <==>
        forall k | k in demands :: k in call.arguments && Meets(w.render, demands[k], call.arguments[k])
    {
      forall k | k in demands && k in call.arguments
        ensures Accepted(w.render, w.task.steps[i].rules.value[k], call.arguments[k], state)
            <==> Meets(w.render, demands[k], call.arguments[k])
      {
        RealizedMeets(w.render, w.task.steps[i].rules.value[k], demands[k], state, call.arguments[k]);
      }
      hide Realizes, Accepted, Meets, AttemptAt, GateAt, AfterGate, Merged;
      ArgumentsDecide(w, core, call);
    }
  }

  /** The plan is realized step by step. */
  ghost predicate AllRealized(steps: seq<Step>, plan: seq<Planned>) {
    && |steps| == |plan|
    && forall i | 0 <= i < |plan| ::
         steps[i].route == plan[i].route && Realized(steps[i], plan[i].demands, Merged(steps[..i]))
  }

  lemma RealizedFollows(task: Task, plan: seq<Planned>)
    requires task.supported && AllRealized(task.steps, plan)
    ensures Follows(task, plan)
  {
    forall w: World, i | w.task == task && 0 <= i < |plan|
      ensures Asks(w, i, plan[i].demands)
    {
      hide Realized, Asks, Merged;
      RealizedAsks(w, i, plan[i].demands);
    }
    hide Asks, Realized;
  }

  /** Steps whose chained arguments are read from the step just before. */
  ghost predicate Handed(steps: seq<Step>, plan: seq<Planned>, i: nat)
    requires i < |steps| == |plan|
  {
    && steps[i].route == plan[i].route
    && Realized(steps[i], plan[i].demands, if i == 0 then map[] else Absorb(map[], steps[i - 1].observation))
  }

  lemma HandedRealized(steps: seq<Step>, plan: seq<Planned>)
    requires |steps| == |plan| && forall i | 0 <= i < |steps| :: Handed(steps, plan, i)
    ensures AllRealized(steps, plan)
  {
    forall i | 0 <= i < |plan|
      ensures steps[i].route == plan[i].route && Realized(steps[i], plan[i].demands, Merged(steps[..i]))
    {
      assert Handed(steps, plan, i);
      assert steps[..0] == [];
      if i > 0 {
        var before := Merged(steps[..i - 1]);
        assert steps[..i][..i - 1] == steps[..i - 1];
        assert Merged(steps[..i]) == Absorb(before, steps[i - 1].observation);
        hide Realized, Handed, Merged;
        RealizedOver(steps[i], plan[i].demands, before, steps[i - 1].observation);
      }
    }
    hide Realized, Merged;
  }

  lemma RealizedOver(step: Step, demands: map<string, Demand>, before: Object, observation: Object)
    requires Realized(step, demands, Absorb(map[], observation))
    ensures Realized(step, demands, Absorb(before, observation))
  {
    forall k | k in demands
      ensures Realizes(step.rules.value[k], demands[k], Absorb(before, observation))
    {
      RealizesOver(step.rules.value[k], demands[k], before, observation);
    }
    hide Realizes, Absorb;
  }

  lemma RealizesOver(rule: Rule, d: Demand, before: Object, observation: Object)
    requires Realizes(rule, d, Absorb(map[], observation))
    ensures Realizes(rule, d, Absorb(before, observation))
  {
    var small, large := Absorb(map[], observation), Absorb(before, observation);
    assert forall k | k in small :: k in large && large[k] == small[k];
    hide Absorb;
  }

  // ---- Scenarios ------------------------------------------------------------------------------------

  /** What each scenario asks: routes and argument values, chained identifiers spelled out. */
  function ScenarioPlan(scenario: Scenario, index: nat): seq<Planned> {
    match scenario
    case MaterialSearchCurrent => [
      Planned("materials.search", map["query" := Visible]),
      Planned("materials.current", map["material_id" := Exactly("MAT-SEARCH-H" + Pad4(index))])]
    case PaperSearchRetrieve => [
      Planned("papers.search", map["query" := Visible]),
      Planned("papers.retrieve", map["paper_id" := Exactly("P-SEARCH-H" + Pad4(index))])]
    case PaperSearchRetrieveSummary => [
      Planned("papers.search", map["query" := Visible]),
      Planned("papers.retrieve", map["paper_id" := Exactly("P-SEARCH-H" + Pad4(index))]),
      Planned("papers.summarize", map["paper_id" := Exactly("P-SEARCH-H" + Pad4(index))])]
    case MaterialSearchRetrieveExport => [
      Planned("materials.search", map["query" := Visible]),
      Planned("materials.retrieve", map["material_id" := Exactly("MAT-SEARCH-H" + Pad4(index))]),
      Planned("exports.export", map["artifact_id" := Exactly("ART-MAT-H" + Pad4(index))])]
    case MaterialRetrieveExport => [
      Planned("materials.retrieve", map["material_id" := Exactly("MAT-H" + Pad4(index))]),
      Planned("exports.export", map["artifact_id" := Exactly("ART-MAT-H" + Pad4(index))])]
    case CreditCreateShare => [
      Planned("credits.create", map["amount" := Amount(100 + index % 37)]),
      Planned("messaging.share", map["artifact_id" := Exactly("ART-CREDIT-H" + Pad4(index)),
                                     "recipient" := Exactly("analyst@example.org")])]
    case InventoryCreateSend => [
      Planned("inventory.create", map["item_name" := Exactly("sample-holder-" + Pad4(index))]),
      Planned("messaging.send", map["recipient" := Exactly("analyst@example.org"),
                                    "message" := Holding("INV-NEW-H" + Pad4(index))])]
    case CurrentHistory => [
      Planned("materials.current", map["material_id" := Exactly("MAT-H" + Pad4(index))]),
      Planned("materials.history", map["material_id" := Exactly("MAT-H" + Pad4(index))])]
    case CurrentForecast => [
      Planned("materials.current", map["material_id" := Exactly("MAT-H" + Pad4(index))]),
      Planned("materials.forecast", map["material_id" := Exactly("MAT-H" + Pad4(index))])]
    case Direct(op) => [DirectPlan(op, index)]
  }

  function DirectPlan(op: DirectOp, index: nat): Planned {
    match op
    case MaterialsCurrent => Planned("materials.current", map["material_id" := Exactly("MAT-H" + Pad4(index))])
    case MaterialsHistory => Planned("materials.history", map["material_id" := Exactly("MAT-H" + Pad4(index))])
    case MaterialsForecast => Planned("materials.forecast", map["material_id" := Exactly("MAT-H" + Pad4(index))])
    case PapersRetrieve => Planned("papers.retrieve", map["paper_id" := Exactly("P-H" + Pad4(index))])
    case PapersSummarize => Planned("papers.summarize", map["paper_id" := Exactly("P-H" + Pad4(index))])
    case InventoryUpdate => Planned("inventory.update", map["item_id" := Exactly("INV-H" + Pad4(index))])
    case InventoryDelete => Planned("inventory.delete", map["item_id" := Exactly("INV-H" + Pad4(index))])
    case RuntimeRestart => Planned("runtime.restart", map["runtime_id" := Exactly("RT-H" + Pad4(index))])
  }

  // One rule realizes one demand.

  lemma TextAsks(step: Step, key: string, s: string, state: Object)
    requires step.rules == Some(map[key := Equals(Str(s))])
    ensures Realized(step, map[key := Exactly(s)], state)
  {
  }

  lemma VisibleAsks(step: Step, key: string, state: Object)
    requires step.rules == Some(map[key := ANY_TEXT])
    ensures Realized(step, map[key := Visible], state)
  {
  }

  lemma AmountAsks(step: Step, key: string, i: int, state: Object)
    requires step.rules == Some(map[key := Equals(Int(i))])
    ensures Realized(step, map[key := Amount(i)], state)
  {
  }

  lemma ChainAsks(step: Step, key: string, s: string, observation: Object)
    requires step.rules == Some(map[key := FromState(key)]) && key != "status" && key != "error"
    requires key in observation && observation[key] == Str(s)
    ensures Realized(step, map[key := Exactly(s)], Absorb(map[], observation))
  {
    assert key in Absorb(map[], observation) && Absorb(map[], observation)[key] == Str(s);
  }

  /** One step, alone or first. */
  lemma FirstHanded(steps: seq<Step>, plan: seq<Planned>)
    requires |steps| == |plan| > 0 && steps[0].route == plan[0].route
    requires Realized(steps[0], plan[0].demands, map[])
    ensures Handed(steps, plan, 0)
  {
  }

  lemma NextHanded(steps: seq<Step>, plan: seq<Planned>, i: nat)
    requires 0 < i < |steps| == |plan| && steps[i].route == plan[i].route
    requires Realized(steps[i], plan[i].demands, Absorb(map[], steps[i - 1].observation))
    ensures Handed(steps, plan, i)
  {
  }

  /** A chain of two: what the first step shows, the second must be given. */
  lemma PairHanded(steps: seq<Step>, plan: seq<Planned>, key: string, s: string)
    requires |steps| == 2 == |plan| && steps[0].route == plan[0].route && steps[1].route == plan[1].route
    requires Realized(steps[0], plan[0].demands, map[])
    requires steps[1].rules == Some(map[key := FromState(key)]) && plan[1].demands == map[key := Exactly(s)]
    requires key in steps[0].observation && steps[0].observation[key] == Str(s) && key != "status" && key != "error"
    ensures AllRealized(steps, plan)
  {
    hide Realized, AllRealized, Handed;
    ChainAsks(steps[1], key, s, steps[0].observation);
    FirstHanded(steps, plan);
    NextHanded(steps, plan, 1);
    HandedRealized(steps, plan);
  }

  lemma RouteNames()
    ensures Route(PapersSearch) == "papers.search" && Route(PapersRetrieve) == "papers.retrieve"
    ensures Route(PapersSummarize) == "papers.summarize" && Route(MaterialsSearch) == "materials.search"
    ensures Route(MaterialsRetrieve) == "materials.retrieve" && Route(MaterialsCurrent) == "materials.current"
    ensures Route(MaterialsHistory) == "materials.history" && Route(MaterialsForecast) == "materials.forecast"
    ensures Route(InventoryCreate) == "inventory.create" && Route(InventoryUpdate) == "inventory.update"
    ensures Route(InventoryDelete) == "inventory.delete" && Route(MessagingSend) == "messaging.send"
    ensures Route(MessagingShare) == "messaging.share" && Route(CreditsCreate) == "credits.create"
    ensures Route(RuntimeRestart) == "runtime.restart" && Route(ExportsExport) == "exports.export"
  {
  }

  lemma SearchCurrentPlanned(index: nat, fault: string)
    ensures AllRealized(SearchThenCurrent(index, fault), ScenarioPlan(MaterialSearchCurrent, index))
  {
    RouteNames();
    hide Route, Realized, AllRealized, Pad4, Digits, ValueOf;
    var steps := SearchThenCurrent(index, fault);
    VisibleAsks(steps[0], "query", map[]);
    PairHanded(steps, ScenarioPlan(MaterialSearchCurrent, index), "material_id", "MAT-SEARCH-H" + Pad4(index));
  }

  lemma SearchRetrievePlanned(index: nat, fault: string)
    ensures AllRealized(SearchThenRetrieve(index, fault), ScenarioPlan(PaperSearchRetrieve, index))
  {
    RouteNames();
    hide Route, Realized, AllRealized, Pad4, Digits, ValueOf;
    var steps := SearchThenRetrieve(index, fault);
    VisibleAsks(steps[0], "query", map[]);
    PairHanded(steps, ScenarioPlan(PaperSearchRetrieve, index), "paper_id", "P-SEARCH-H" + Pad4(index));
  }

  lemma RetrieveExportPlanned(index: nat, fault: string)
    ensures AllRealized(RetrieveThenExport(index, fault), ScenarioPlan(MaterialRetrieveExport, index))
  {
    RouteNames();
    hide Route, Realized, AllRealized, Pad4, Digits, ValueOf;
    var steps := RetrieveThenExport(index, fault);
    TextAsks(steps[0], "material_id", "MAT-H" + Pad4(index), map[]);
    PairHanded(steps, ScenarioPlan(MaterialRetrieveExport, index), "artifact_id", "ART-MAT-H" + Pad4(index));
  }

  /** A chain of three. */
  lemma TripleHanded(steps: seq<Step>, plan: seq<Planned>, k: string, s: string, l: string, t: string)
    requires |steps| == 3 == |plan| && forall i | 0 <= i < 3 :: steps[i].route == plan[i].route
    requires Realized(steps[0], plan[0].demands, map[])
    requires steps[1].rules == Some(map[k := FromState(k)]) && plan[1].demands == map[k := Exactly(s)]
    requires k in steps[0].observation && steps[0].observation[k] == Str(s) && k != "status" && k != "error"
    requires steps[2].rules == Some(map[l := FromState(l)]) && plan[2].demands == map[l := Exactly(t)]
    requires l in steps[1].observation && steps[1].observation[l] == Str(t) && l != "status" && l != "error"
    ensures AllRealized(steps, plan)
  {
    hide Realized, AllRealized, Handed;
    ChainAsks(steps[1], k, s, steps[0].observation);
    ChainAsks(steps[2], l, t, steps[1].observation);
    FirstHanded(steps, plan);
    NextHanded(steps, plan, 1);
    NextHanded(steps, plan, 2);
    HandedRealized(steps, plan);
  }

  lemma SummarizePlanned(index: nat, fault: string)
    ensures AllRealized(SearchRetrieveSummarize(index, fault), ScenarioPlan(PaperSearchRetrieveSummary, index))
  {
    RouteNames();
    hide Route, Realized, AllRealized, Pad4, Digits, ValueOf;
    var steps, paper := SearchRetrieveSummarize(index, fault), "P-SEARCH-H" + Pad4(index);
    VisibleAsks(steps[0], "query", map[]);
    TripleHanded(steps, ScenarioPlan(PaperSearchRetrieveSummary, index), "paper_id", paper, "paper_id", paper);
  }

  lemma SearchExportPlanned(index: nat, fault: string)
    ensures AllRealized(SearchRetrieveExport(index, fault), ScenarioPlan(MaterialSearchRetrieveExport, index))
  {
    RouteNames();
    hide Route, Realized, AllRealized, Pad4, Digits, ValueOf;
    var steps := SearchRetrieveExport(index, fault);
    VisibleAsks(steps[0], "query", map[]);
    TripleHanded(steps, ScenarioPlan(MaterialSearchRetrieveExport, index),
      "material_id", "MAT-SEARCH-H" + Pad4(index), "artifact_id", "ART-MAT-H" + Pad4(index));
  }

  /** Two arguments, one after the other. */
  lemma BothAsk(step: Step, k: string, rk: Rule, dk: Demand, l: string, rl: Rule, dl: Demand, state: Object)
    requires k != l && step.rules == Some(map[k := rk, l := rl])
    requires Realizes(rk, dk, state) && Realizes(rl, dl, state)
    ensures Realized(step, map[k := dk, l := dl], state)
  {
    hide Realizes;
  }

  lemma ChainRealizes(key: string, s: string, observation: Object)
    requires key in observation && observation[key] == Str(s) && key != "status" && key != "error"
    ensures Realizes(FromState(key), Exactly(s), Absorb(map[], observation))
    ensures Realizes(Mentions(key), Holding(s), Absorb(map[], observation))
  {
    assert key in Absorb(map[], observation) && Absorb(map[], observation)[key] == Str(s);
  }

  lemma TextRealizes(s: string, state: Object)
    ensures Realizes(Equals(Str(s)), Exactly(s), state)
    ensures Realizes(ANY_TEXT, Visible, state)
  {
  }

  lemma CreditPlanned(index: nat, fault: string)
    ensures AllRealized([CreditRequest(index, fault), Share(index)], ScenarioPlan(CreditCreateShare, index))
  {
    RouteNames();
    var steps, plan := [CreditRequest(index, fault), Share(index)], ScenarioPlan(CreditCreateShare, index);
    hide Route, Realized, AllRealized, Handed, Realizes, Pad4, Absorb;
    AmountAsks(steps[0], "amount", 100 + index % 37, map[]);
    FirstHanded(steps, plan);
    var state, artifact := Absorb(map[], steps[0].observation), "ART-CREDIT-H" + Pad4(index);
    ChainRealizes("artifact_id", artifact, steps[0].observation);
    TextRealizes(RECIPIENT, state);
    BothAsk(steps[1], "artifact_id", FromState("artifact_id"), Exactly(artifact),
      "recipient", Equals(Str(RECIPIENT)), Exactly(RECIPIENT), state);
    NextHanded(steps, plan, 1);
    HandedRealized(steps, plan);
  }

  lemma InventoryPlanned(index: nat, fault: string)
    ensures AllRealized([NewItem(index, fault), SendMessage(Mentions("item_id"), Id("MSG-H", index))],
                        ScenarioPlan(InventoryCreateSend, index))
  {
    RouteNames();
    var steps := [NewItem(index, fault), SendMessage(Mentions("item_id"), Id("MSG-H", index))];
    var plan := ScenarioPlan(InventoryCreateSend, index);
    hide Route, Realized, AllRealized, Handed, Realizes, Pad4, Absorb;
    TextAsks(steps[0], "item_name", "sample-holder-" + Pad4(index), map[]);
    FirstHanded(steps, plan);
    var state, item := Absorb(map[], steps[0].observation), "INV-NEW-H" + Pad4(index);
    ChainRealizes("item_id", item, steps[0].observation);
    TextRealizes(RECIPIENT, state);
    BothAsk(steps[1], "recipient", Equals(Str(RECIPIENT)), Exactly(RECIPIENT),
      "message", Mentions("item_id"), Holding(item), state);
    NextHanded(steps, plan, 1);
    HandedRealized(steps, plan);
  }

  lemma SeriesPlanned(op: Op, index: nat, series: seq<Json>, fault: string, plan: seq<Planned>)
    requires |plan| == 2 && plan[0].route == "materials.current" && plan[1].route == Route(op)
    requires forall i | 0 <= i < 2 :: plan[i].demands == map["material_id" := Exactly("MAT-H" + Pad4(index))]
    ensures AllRealized(CurrentThenSeries(op, index, series, fault), plan)
  {
    RouteNames();
    var steps := CurrentThenSeries(op, index, series, fault);
    hide Route, Realized, AllRealized, Handed, Pad4, Absorb, ValueOf;
    TextAsks(steps[0], "material_id", "MAT-H" + Pad4(index), map[]);
    TextAsks(steps[1], "material_id", "MAT-H" + Pad4(index), Absorb(map[], steps[0].observation));
    FirstHanded(steps, plan);
    NextHanded(steps, plan, 1);
    HandedRealized(steps, plan);
  }

  lemma DirectPlanned(op: DirectOp, index: nat, fault: string)
    ensures AllRealized([DirectStep(op, index, fault)], [DirectPlan(op, index)])
  {
    RouteNames();
    var steps, plan := [DirectStep(op, index, fault)], [DirectPlan(op, index)];
    assert plan[0].route == Route(op) && plan[0].demands == map[DirectKey(op) := Exactly(DirectTarget(op, index))] by {
      hide Route, Pad4;
    }
    hide Route, Realized, AllRealized, Handed, DirectPlan, DirectKey, DirectTarget, DirectObservation;
    TextAsks(steps[0], DirectKey(op), DirectTarget(op, index), map[]);
    FirstHanded(steps, plan);
    HandedRealized(steps, plan);
  }

  lemma ScenarioPlanned(scenario: Scenario, index: nat, failOnce: bool)
    ensures AllRealized(ScenarioSteps(scenario, index, failOnce), ScenarioPlan(scenario, index))
  {
    hide AllRealized, SearchThenCurrent, SearchThenRetrieve, SearchRetrieveSummarize, SearchRetrieveExport;
    hide RetrieveThenExport, CreditRequest, Share, NewItem, SendMessage, CurrentThenSeries, DirectStep, DirectPlan;
    hide FaultText, Route, Pad4, Id, History, Forecast;
    var fault := FaultText(failOnce);
    match scenario {
      case MaterialSearchCurrent => SearchCurrentPlanned(index, fault);
      case PaperSearchRetrieve => SearchRetrievePlanned(index, fault);
      case PaperSearchRetrieveSummary => SummarizePlanned(index, fault);
      case MaterialSearchRetrieveExport => SearchExportPlanned(index, fault);
      case MaterialRetrieveExport => RetrieveExportPlanned(index, fault);
      case CreditCreateShare => CreditPlanned(index, fault);
      case InventoryCreateSend => InventoryPlanned(index, fault);
      case CurrentHistory =>
        RouteNames();
        SeriesPlanned(MaterialsHistory, index, History(index), fault, ScenarioPlan(scenario, index));
      case CurrentForecast =>
        RouteNames();
        SeriesPlanned(MaterialsForecast, index, Forecast(index), fault, ScenarioPlan(scenario, index));
      case Direct(op) => DirectPlanned(op, index, fault);
    }
  }

  // ---- Indices --------------------------------------------------------------------------------------

  predicate Decimal(s: string) {
    forall i | 0 <= i < |s| :: '0' <= s[i] <= '9'
  }

  /** The number a decimal text stands for. */
  function Reading(s: string): nat
    requires Decimal(s)
  {
    if s == "" then 0 else Reading(s[..|s| - 1]) * 10 + (s[|s| - 1] as int - '0' as int)
  }

  lemma {:induction false} DigitsRead(n: nat)
    ensures Decimal(Digits(n)) && Reading(Digits(n)) == n
    ensures n >= 1000 <==> |Digits(n)| >= 4
    ensures n >= 100 <==> |Digits(n)| >= 3
    ensures n >= 10 <==> |Digits(n)| >= 2
    ensures |Digits(n)| >= 1
  {
    if n >= 10 {
      DigitsRead(n / 10);
      assert Digits(n)[..|Digits(n)| - 1] == Digits(n / 10);
    } else {
      assert Digits(n)[..0] == "";
    }
  }

  lemma {:induction false} ZerosRead(k: nat, s: string)
    requires Decimal(s)
    ensures Decimal(Zeros(k) + s) && Reading(Zeros(k) + s) == Reading(s)
  {
    if s == "" {
      assert Zeros(k) + s == Zeros(k);
      if k > 0 {
        ZerosRead(k - 1, s);
        assert Zeros(k)[..k - 1] == Zeros(k - 1) + s;
      }
    } else {
      var init := s[..|s| - 1];
      ZerosRead(k, init);
      assert (Zeros(k) + s)[..k + |s| - 1] == Zeros(k) + init;
    }
  }

  /** An index is written in decimal, with at least four digits and no more than it needs. */
  lemma PadExactly(n: nat)
    ensures Decimal(Pad4(n)) && Reading(Pad4(n)) == n
    ensures |Pad4(n)| >= 4 && (n < 10000 ==> |Pad4(n)| == 4)
  {
    DigitsRead(n);
    if n < 10000 {
      FourDigits(n);
    }
    if |Digits(n)| < 4 {
      ZerosRead(4 - |Digits(n)|, Digits(n));
    }
    hide Digits, Reading;
  }

  lemma FourDigits(n: nat)
    requires n < 10000
    ensures |Digits(n)| <= 4
  {
    DigitsRead(n / 10);
  }

  // ---- The corpora ------------------------------------------------------------------------------------

  function PlansOf(menu: seq<Scenario>, index: nat): (plans: seq<seq<Planned>>)
    ensures |plans| == |menu|
  {
    seq(|menu|, i requires 0 <= i < |menu| => ScenarioPlan(menu[i], index))
  }

  /** The plans of a corrective stratum, in the order its slots go round. */
  function CorrectivePlans(stratum: CorrectiveStratum, index: nat): (plans: seq<seq<Planned>>)
    ensures plans != []
  {
    match stratum
    case TwoStepStateDependency => PlansOf([
      MaterialSearchCurrent, PaperSearchRetrieve, CreditCreateShare, InventoryCreateSend, MaterialRetrieveExport,
      CurrentHistory], index)
    case ThreeStepStateDependency => PlansOf([PaperSearchRetrieveSummary, MaterialSearchRetrieveExport], index)
    case RecoverableFailure => PlansOf([
      MaterialSearchCurrent, PaperSearchRetrieveSummary, MaterialRetrieveExport, CreditCreateShare,
      InventoryCreateSend, CurrentForecast], index)
    case ProvenancePropagation => PlansOf([MaterialRetrieveExport, CreditCreateShare, InventoryCreateSend], index)
    case TypedUnitTransition => PlansOf([CurrentHistory, CurrentForecast], index)
  }

  /** Empty for the three strata no tool can serve. */
  function HeldoutPlans(stratum: HeldoutStratum, index: nat): seq<seq<Planned>> {
    match stratum
    case SingleToolExact => PlansOf([
      Direct(MaterialsCurrent), Direct(PapersRetrieve), Direct(InventoryUpdate), Direct(RuntimeRestart)], index)
    case TwoStepDependent => PlansOf([
      MaterialSearchCurrent, PaperSearchRetrieve, CreditCreateShare, InventoryCreateSend], index)
    case ThreeStepDependent => PlansOf([PaperSearchRetrieveSummary, MaterialSearchRetrieveExport], index)
    case SiblingAmbiguity => PlansOf([
      Direct(MaterialsCurrent), Direct(MaterialsHistory), Direct(MaterialsForecast), Direct(PapersRetrieve),
      Direct(PapersSummarize)], index)
    case TypedNumericUnits => PlansOf([
      Direct(MaterialsCurrent), Direct(MaterialsHistory), Direct(MaterialsForecast), CurrentHistory,
      CurrentForecast], index)
    case HeldoutProvenance => PlansOf([MaterialRetrieveExport, CreditCreateShare, InventoryCreateSend], index)
    case ReadVsWrite => PlansOf([Direct(InventoryUpdate), Direct(MaterialsCurrent), Direct(RuntimeRestart)], index)
    case DestructiveVsNot => PlansOf([Direct(InventoryUpdate), Direct(InventoryDelete)], index)
    case HeldoutFailure => PlansOf([
      MaterialSearchCurrent, PaperSearchRetrieveSummary, MaterialRetrieveExport, CreditCreateShare,
      InventoryCreateSend], index)
    case AdjacentDistractors => PlansOf([
      Direct(MaterialsForecast), Direct(PapersSummarize), MaterialSearchCurrent, PaperSearchRetrieve], index)
    case _ => []
  }

  /** The routes the task requires, and where a scripted fault sits. */
  ghost predicate Requires(task: Task, plan: seq<Planned>, faultAt: Option<nat>) {
    && |task.requiredRoutes| == |plan| == |task.steps|
    && (forall i | 0 <= i < |plan| :: task.requiredRoutes[i] == plan[i].route)
    && (forall i | 0 <= i < |plan| ::
          task.steps[i].failOnce == if faultAt == Some(i) then "transient_backend" else "")
    && (faultAt.Some? ==> faultAt.value < |plan|)
  }

  lemma FaultTexts(scenario: Scenario, index: nat, failOnce: bool)
    ensures var steps := ScenarioSteps(scenario, index, failOnce);
      && FaultAt(scenario) < |steps|
      && forall i | 0 <= i < |steps| ::
           steps[i].failOnce == if failOnce && i == FaultAt(scenario) then "transient_backend" else ""
  {
    hide Route, Id, Digits, ValueOf, DirectObservation, DirectKey, DirectTarget, Equals, FromState, Mentions;
  }

  lemma {:induction false} DedupIdle(xs: seq<string>)
    requires forall i, j | 0 <= i < j < |xs| :: xs[i] != xs[j]
    ensures Dedup(xs) == xs
  {
    if xs != [] {
      DedupIdle(xs[..|xs| - 1]);
    }
  }

  lemma ScenarioBuilt(scenario: Scenario, index: nat, failOnce: bool, query: string)
    ensures var task := Supported(query, ScenarioSteps(scenario, index, failOnce));
      && task.query == query && Follows(task, ScenarioPlan(scenario, index))
      && Requires(task, ScenarioPlan(scenario, index), if failOnce then Some(FaultAt(scenario)) else None)
  {
    hide ScenarioSteps, ScenarioPlan, Follows, Realized, OpsOf, Route, FaultAt;
    var steps, plan := ScenarioSteps(scenario, index, failOnce), ScenarioPlan(scenario, index);
    ScenarioPlanned(scenario, index, failOnce);
    RealizedFollows(Supported(query, steps), plan);
    FaultTexts(scenario, index, failOnce);
    ScenarioRoutes(scenario, index, failOnce);
    OpsDistinct(scenario);
    DistinctRoutes(OpsOf(scenario));
    DedupIdle(StepRoutes(steps));
    hide Dedup;
  }

  lemma DistinctRoutes(ops: seq<Op>)
    requires forall i, j | 0 <= i < j < |ops| :: ops[i] != ops[j]
    ensures forall i, j | 0 <= i < j < |ops| :: Routes(ops)[i] != Routes(ops)[j]
  {
    forall i, j | 0 <= i < j < |ops|
      ensures Routes(ops)[i] != Routes(ops)[j]
    {
      if Routes(ops)[i] == Routes(ops)[j] {
        RouteInjective(ops[i], ops[j]);
      }
    }
    hide Route;
  }

  /** Every corrective task: its slot picks a plan round-robin, the task asks exactly for
      it, and only the recoverable stratum carries a fault - "transient_backend", on the
      first step, or on the second in the three-step plan. */
  lemma BuiltCorrective(stratum: CorrectiveStratum, ordinal: int, index: nat, query: string)
    ensures var task, plans := BuildCorrective(stratum, ordinal, index, query), CorrectivePlans(stratum, index);
      var slot := (ordinal - 1) % |plans|;
      && task.query == query && Follows(task, plans[slot])
      && Requires(task, plans[slot],
           if !stratum.RecoverableFailure? then None else if slot == 1 then Some(1) else Some(0))
  {
    var list := CorrectiveScenarios(stratum);
    var slot := (ordinal - 1) % |list|;
    assert CorrectivePlans(stratum, index) == PlansOf(list, index) by { hide ScenarioPlan; }
    assert stratum.RecoverableFailure? ==> FaultAt(list[slot]) == if slot == 1 then 1 else 0;
    hide Follows, Requires, ScenarioSteps, ScenarioPlan, CorrectiveScenarios, CorrectivePlans, Supported, FaultAt;
    ScenarioBuilt(list[slot], index, stratum.RecoverableFailure?, query);
  }

  /** Every held-out task: unsupported and empty in three strata; otherwise as above, with
      a fault exactly in the recoverable stratum. */
  lemma BuiltHeldout(stratum: HeldoutStratum, ordinal: int, index: nat, query: string)
    ensures var task, plans := BuildHeldout(stratum, ordinal, index, query), HeldoutPlans(stratum, index);
      && task.query == query
      && (plans == [] <==> stratum.InsufficientInformation? || stratum.MissingCapability? || stratum.OutOfDomain?)
      && (plans == [] ==> !task.supported && task.steps == [] && task.requiredRoutes == [])
      && (plans != [] ==>
            var slot := (ordinal - 1) % |plans|;
            && Follows(task, plans[slot])
            && Requires(task, plans[slot],
                 if !stratum.HeldoutFailure? then None else if slot == 1 then Some(1) else Some(0)))
  {
    var list := HeldoutScenarios(stratum);
    assert HeldoutPlans(stratum, index) == PlansOf(list, index) by { hide ScenarioPlan; }
    if list == [] {
      HeldoutSupport(stratum, ordinal, index, query);
      hide HeldoutScenarios, HeldoutPlans;
    } else {
      var slot := (ordinal - 1) % |list|;
      assert stratum.HeldoutFailure? ==> FaultAt(list[slot]) == if slot == 1 then 1 else 0;
      HeldoutSupport(stratum, ordinal, index, query);
      hide Follows, Requires, ScenarioSteps, ScenarioPlan, HeldoutScenarios, HeldoutPlans, Supported, FaultAt;
      ScenarioBuilt(list[slot], index, stratum.HeldoutFailure?, query);
    }
  }

  function FinalPlan(stratum: FinalStratum, index: nat): seq<Planned> {
    var material := Exactly("MAT-H" + Pad4(index));
    match stratum
    case SingleProperty => [Planned("materials.current", map["material_id" := material])]
    case LiteratureFact => [Planned("papers.retrieve", map["paper_id" := Exactly("P-H" + Pad4(index))])]
    case MultiSource => [
      Planned("materials.current", map["material_id" := material]),
      Planned("materials.history", map["material_id" := material])]
    case TransformOrExport => [
      Planned("materials.retrieve", map["material_id" := material]),
      Planned("exports.export", map["artifact_id" := Exactly("ART-F" + Pad4(index))])]
    case CorrectiveExpansion => [
      Planned("materials.retrieve", map["material_id" := material]),
      Planned("exports.export", map["artifact_id" := Exactly("ART-F" + Pad4(index))]),
      Planned("runtime.restart", map["runtime_id" := Exactly("RT-H" + Pad4(index))]),
      Planned("messaging.send", map["recipient" := Exactly("analyst@example.org"), "message" := Visible])]
    case Contradiction => [Planned("materials.forecast", map["material_id" := material])]
  }

  lemma FinalExportPlanned(index: nat)
    ensures AllRealized(FinalSteps(TransformOrExport, index), FinalPlan(TransformOrExport, index))
    ensures AllRealized(FinalSteps(CorrectiveExpansion, index), FinalPlan(CorrectiveExpansion, index))
  {
    RouteNames();
    var steps, plan := FinalSteps(CorrectiveExpansion, index), FinalPlan(CorrectiveExpansion, index);
    var two, short := FinalSteps(TransformOrExport, index), FinalPlan(TransformOrExport, index);
    hide Route, Realized, AllRealized, Handed, Realizes, Pad4, Absorb;
    TextAsks(steps[0], "material_id", "MAT-H" + Pad4(index), map[]);
    PairHanded(two, short, "artifact_id", "ART-F" + Pad4(index));
    ChainAsks(steps[1], "artifact_id", "ART-F" + Pad4(index), steps[0].observation);
    TextAsks(steps[2], "runtime_id", "RT-H" + Pad4(index), Absorb(map[], steps[1].observation));
    var state := Absorb(map[], steps[2].observation);
    TextRealizes(RECIPIENT, state);
    BothAsk(steps[3], "recipient", Equals(Str(RECIPIENT)), Exactly(RECIPIENT), "message", ANY_TEXT, Visible, state);
    FirstHanded(steps, plan);
    NextHanded(steps, plan, 1);
    NextHanded(steps, plan, 2);
    NextHanded(steps, plan, 3);
    HandedRealized(steps, plan);
  }

  lemma FinalValuePlanned(stratum: FinalStratum, index: nat)
    requires !stratum.TransformOrExport? && !stratum.CorrectiveExpansion?
    ensures AllRealized(FinalSteps(stratum, index), FinalPlan(stratum, index))
  {
    RouteNames();
    var steps, plan := FinalSteps(stratum, index), FinalPlan(stratum, index);
    hide Route, Realized, AllRealized, Handed, Pad4, Absorb, ValueOf, Sourced;
    var key, target := if stratum.LiteratureFact? then "paper_id" else "material_id",
      (if stratum.LiteratureFact? then "P-H" else "MAT-H") + Pad4(index);
    TextAsks(steps[0], key, target, map[]);
    FirstHanded(steps, plan);
    if stratum.MultiSource? {
      TextAsks(steps[1], key, target, Absorb(map[], steps[0].observation));
      NextHanded(steps, plan, 1);
    }
    HandedRealized(steps, plan);
  }

  /** Every final-answer task asks exactly for its plan, and carries no fault. */
  lemma BuiltFinal(stratum: FinalStratum, index: nat, query: string)
    ensures var task := BuildFinal(stratum, index, query);
      task.query == query && Follows(task, FinalPlan(stratum, index)) && Requires(task, FinalPlan(stratum, index), None)
  {
    var steps, plan := FinalSteps(stratum, index), FinalPlan(stratum, index);
    FinalFaultless(stratum, index);
    hide FinalSteps, FinalPlan, Follows, Realized, FinalOps, Route;
    if stratum.TransformOrExport? || stratum.CorrectiveExpansion? {
      FinalExportPlanned(index);
    } else {
      FinalValuePlanned(stratum, index);
    }
    RealizedFollows(Supported(query, steps), plan);
    FinalRoutes(stratum, index);
    FinalOpsDistinct(stratum);
    DistinctRoutes(FinalOps(stratum));
    DedupIdle(StepRoutes(steps));
    hide Dedup;
  }

  lemma FinalFaultless(stratum: FinalStratum, index: nat)
    ensures forall i | 0 <= i < |FinalSteps(stratum, index)| :: FinalSteps(stratum, index)[i].failOnce == ""
  {
    hide Route, Id, Digits, ValueOf, Sourced, Pad4;
  }

  // ---- Observations -------------------------------------------------------------------------------------

  /** A modulus in gigapascals. */
  function Modulus(value: Json): Object {
    map["status" := Str("ok"), "youngs_modulus" := value, "unit" := Str("GPa")]
  }

  /** What each step of a scenario shows once it is consumed. */
  function ScenarioShows(scenario: Scenario, index: nat): seq<Object> {
    var n, ok := Pad4(index), Str("ok");
    match scenario
    case MaterialSearchCurrent => [
      map["status" := ok, "material_id" := Str("MAT-SEARCH-H" + n), "formula" := Str("X" + Digits(index) + "Y")],
      Modulus(Num(110.0 + (index % 41) as real))]
    case PaperSearchRetrieve => [
      map["status" := ok, "paper_id" := Str("P-SEARCH-H" + n), "title" := Str("Paper " + Digits(index))],
      map["status" := ok, "paper_id" := Str("P-SEARCH-H" + n),
          "paper_text" := Str("Independent deterministic evidence " + Digits(index) + ".")]]
    case PaperSearchRetrieveSummary => [
      map["status" := ok, "paper_id" := Str("P-SEARCH-H" + n), "title" := Str("Paper " + Digits(index))],
      map["status" := ok, "paper_id" := Str("P-SEARCH-H" + n),
          "paper_text" := Str("Independent deterministic paper content " + Digits(index) + ".")],
      map["status" := ok, "summary" := Str("Independent summary " + Digits(index) + ".")]]
    case MaterialSearchRetrieveExport => [
      map["status" := ok, "material_id" := Str("MAT-SEARCH-H" + n), "formula" := Str("M" + Digits(index) + "N")],
      map["status" := ok, "material_id" := Str("MAT-SEARCH-H" + n), "formula" := Str("M" + Digits(index) + "N"),
          "artifact_id" := Str("ART-MAT-H" + n)],
      map["status" := ok, "file_uri" := Str("file:///tmp/" + ("ART-MAT-H" + n) + ".json")]]
    case MaterialRetrieveExport => [
      map["status" := ok, "material_id" := Str("MAT-H" + n), "formula" := Str("Q" + Digits(index) + "R"),
          "artifact_id" := Str("ART-MAT-H" + n)],
      map["status" := ok, "file_uri" := Str("file:///tmp/" + ("ART-MAT-H" + n) + ".json")]]
    case CreditCreateShare => [
      map["status" := ok, "credit_id" := Str("CR-NEW-H" + n), "artifact_id" := Str("ART-CREDIT-H" + n)],
      map["status" := ok, "share_id" := Str("SHARE-H" + n)]]
    case InventoryCreateSend => [
      map["status" := ok, "item_id" := Str("INV-NEW-H" + n)],
      map["status" := ok, "message_id" := Str("MSG-H" + n)]]
    case CurrentHistory =>
      var first := 115.0 + (index % 31) as real;
      [Modulus(Num(first)), Modulus(Arr([Num(first - 2.0), Num(first - 1.0), Num(first)]))]
    case CurrentForecast =>
      var first := 115.0 + (index % 31) as real;
      [Modulus(Num(first)), Modulus(Arr([Num(first + 1.0), Num(first + 2.0)]))]
    case Direct(op) => [DirectShows(op, index)]
  }

  function DirectShows(op: DirectOp, index: nat): Object {
    var n, ok := Pad4(index), Str("ok");
    match op
    case MaterialsCurrent => Modulus(Num(120.0 + (index % 17) as real))
    case MaterialsHistory => Modulus(Arr([Num(118.0), Num(119.0), Num(120.0)]))
    case MaterialsForecast => Modulus(Arr([Num(121.0), Num(122.0)]))
    case PapersRetrieve =>
      map["status" := ok, "paper_id" := Str("P-H" + n),
          "paper_text" := Str("Independent paper evidence " + Digits(index) + ".")]
    case PapersSummarize =>
      map["status" := ok, "summary" := Str("Independent summary evidence " + Digits(index) + ".")]
    case InventoryUpdate => map["status" := ok, "item_id" := Str("INV-H" + n)]
    case InventoryDelete => map["status" := ok, "deleted_item_id" := Str("INV-H" + n)]
    case RuntimeRestart => map["status" := ok, "runtime_id" := Str("RT-H" + n), "state" := Str("running")]
  }

  lemma DirectShown(op: DirectOp, index: nat)
    ensures DirectObservation(op, index) == DirectShows(op, index)
  {
    hide Pad4, Digits;
  }

  /** Every scenario step shows exactly this. */
  lemma ScenarioObservations(scenario: Scenario, index: nat, failOnce: bool)
    ensures var steps, shows := ScenarioSteps(scenario, index, failOnce), ScenarioShows(scenario, index);
      |steps| == |shows| && forall i | 0 <= i < |steps| :: steps[i].observation == shows[i]
  {
    hide Pad4, Digits, Route, DirectObservation, DirectShows, DirectKey, DirectTarget, FaultText;
    if scenario.Direct? {
      DirectShown(scenario.op, index);
    }
  }

  // ---- Turns ----------------------------------------------------------------------------------------------

  /** The fewest turns a corrective task takes. */
  function CorrectiveTurns(stratum: CorrectiveStratum, slot: nat): nat {
    match stratum
    case TwoStepStateDependency => 2
    case ThreeStepStateDependency => 3
    case RecoverableFailure => if slot == 1 then 4 else 3
    case ProvenancePropagation => 2
    case TypedUnitTransition => 2
  }

  /** The fewest turns a supported held-out task takes. */
  function HeldoutTurns(stratum: HeldoutStratum, slot: nat): nat {
    match stratum
    case SingleToolExact => 1
    case TwoStepDependent => 2
    case ThreeStepDependent => 3
    case SiblingAmbiguity => 1
    case TypedNumericUnits => if slot < 3 then 1 else 2
    case HeldoutProvenance => 2
    case ReadVsWrite => 1
    case DestructiveVsNot => 1
    case HeldoutFailure => if slot == 1 then 4 else 3
    case AdjacentDistractors => if slot < 2 then 1 else 2
    case _ => 0
  }

  /** Exactly this many turns are needed when everything is shown, or when the state-aware
      condition shows each position what it needs; two more when nothing is ranked. */
  ghost predicate TakesTurns(b: Bench, turns: nat) {
    && (b.condition.Full? || b.condition.Oracle? ==> forall m: nat :: PassableIn(b, m) <==> turns <= m)
    && (StateAware(b) && ShowsNext(b) ==> forall m: nat :: PassableIn(b, m) <==> turns <= m)
    && (Progressive(b) && b.rank(b.world.task.query) == [] ==> forall m: nat :: PassableIn(b, m) <==> turns + 2 <= m)
  }

  lemma ScenarioTakes(b: Bench, scenario: Scenario, index: nat, failOnce: bool)
    requires IsScenario(b, scenario, index, failOnce)
    ensures TakesTurns(b, |OpsOf(scenario)| + if failOnce then 1 else 0)
  {
    hide IsScenario, PassableIn, OpsOf, ShowsNext;
    var turns := |OpsOf(scenario)| + if failOnce then 1 else 0;
    forall m: nat
      ensures b.condition.Full? || b.condition.Oracle? || (StateAware(b) && ShowsNext(b)) ==>
        (PassableIn(b, m) <==> turns <= m)
      ensures Progressive(b) && b.rank(b.world.task.query) == [] ==> (PassableIn(b, m) <==> turns + 2 <= m)
    {
      ScenarioTurnCount(b, scenario, index, failOnce, m);
    }
  }

  /** The exact number of turns of every corrective task. */
  lemma CorrectiveTurnCount(b: Bench, stratum: CorrectiveStratum, ordinal: int, index: nat)
    requires WellFormed(b.world.registry) && Provides(b.world.registry) && !Blank(b.world.task.query)
    requires b.world.task == BuildCorrective(stratum, ordinal, index, b.world.task.query)
    ensures TakesTurns(b, CorrectiveTurns(stratum, (ordinal - 1) % |CorrectivePlans(stratum, index)|))
  {
    var list := CorrectiveScenarios(stratum);
    var slot := (ordinal - 1) % |list|;
    hide *;
    CorrectiveSlots(stratum, slot, index);
    CorrectiveIsScenario(b, stratum, ordinal, index);
    ScenarioTakes(b, list[slot], index, stratum.RecoverableFailure?);
  }

  lemma CorrectiveSlots(stratum: CorrectiveStratum, slot: nat, index: nat)
    requires slot < |CorrectiveScenarios(stratum)|
    ensures |CorrectivePlans(stratum, index)| == |CorrectiveScenarios(stratum)|
    ensures |OpsOf(CorrectiveScenarios(stratum)[slot])| + (if stratum.RecoverableFailure? then 1 else 0)
         == CorrectiveTurns(stratum, slot)
  {
    hide ScenarioPlan;
  }

  lemma HeldoutSlots(stratum: HeldoutStratum, slot: nat, index: nat)
    requires slot < |HeldoutScenarios(stratum)|
    ensures |HeldoutPlans(stratum, index)| == |HeldoutScenarios(stratum)|
    ensures |OpsOf(HeldoutScenarios(stratum)[slot])| + (if stratum.HeldoutFailure? then 1 else 0)
         == HeldoutTurns(stratum, slot)
  {
    HeldoutCount(stratum, index);
    hide HeldoutPlans, ScenarioPlan, PlansOf;
  }

  lemma CorrectiveIsScenario(b: Bench, stratum: CorrectiveStratum, ordinal: int, index: nat)
    requires WellFormed(b.world.registry) && Provides(b.world.registry) && !Blank(b.world.task.query)
    requires b.world.task == BuildCorrective(stratum, ordinal, index, b.world.task.query)
    ensures var list := CorrectiveScenarios(stratum);
      IsScenario(b, list[(ordinal - 1) % |list|], index, stratum.RecoverableFailure?)
  {
    hide CorrectiveScenarios, ScenarioSteps, WellFormed, Provides, Blank, Supported;
    var list := CorrectiveScenarios(stratum);
    assert BuildCorrective(stratum, ordinal, index, b.world.task.query) == Supported(
      b.world.task.query, ScenarioSteps(list[(ordinal - 1) % |list|], index, stratum.RecoverableFailure?));
    hide *;
    SupportedIs(b, list[(ordinal - 1) % |list|], index, stratum.RecoverableFailure?);
  }

  lemma SupportedIs(b: Bench, scenario: Scenario, index: nat, failOnce: bool)
    requires WellFormed(b.world.registry) && Provides(b.world.registry) && !Blank(b.world.task.query)
    requires b.world.task == Supported(b.world.task.query, ScenarioSteps(scenario, index, failOnce))
    ensures IsScenario(b, scenario, index, failOnce)
  {
  }

  /** The exact number of turns of every supported held-out task. */
  lemma HeldoutTurnCount(b: Bench, stratum: HeldoutStratum, ordinal: int, index: nat)
    requires WellFormed(b.world.registry) && Provides(b.world.registry) && !Blank(b.world.task.query)
    requires b.world.task == BuildHeldout(stratum, ordinal, index, b.world.task.query)
    requires HeldoutPlans(stratum, index) != []
    ensures TakesTurns(b, HeldoutTurns(stratum, (ordinal - 1) % |HeldoutPlans(stratum, index)|))
  {
    var list := HeldoutScenarios(stratum);
    HeldoutCount(stratum, index);
    hide *;
    var slot := (ordinal - 1) % |list|;
    HeldoutSlots(stratum, slot, index);
    HeldoutIsScenario(b, stratum, ordinal, index);
    ScenarioTakes(b, list[slot], index, stratum.HeldoutFailure?);
  }

  lemma HeldoutCount(stratum: HeldoutStratum, index: nat)
    ensures |HeldoutPlans(stratum, index)| == |HeldoutScenarios(stratum)|
  {
  }
}
