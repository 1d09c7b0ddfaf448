/** The paired, stratified bootstrap of the held-out report. The random generator is an
    arbitrary stream of numbers; every theorem holds for all of them. */
module Bootstrap {
  import opened HeldoutDesign
  import opened Samples
  import opened Wrappers
  import Text

  /** One `task_stratum x language` cell and its tasks, in sorted order. */
  datatype Cell = Cell(stratum: string, language: string, ids: seq<string>)

  datatype Report = Report(delta: real, ciLow: real, ciHigh: real)

  datatype Fault = UnpairedTasks | UnknownTask | DivisionByZero

  // ---- Deltas ---------------------------------------------------------------------------------

  function ValueOf(rows: seq<Row>, task: string): real {
    if OfTask(rows, task) == [] then 0.0 else PassRate(OfTask(rows, task))
  }

  function Deltas(full: seq<Row>, condition: seq<Row>): map<string, real> {
    map t | t in TasksOf(full) :: ValueOf(condition, t) - ValueOf(full, t)
  }

  /** The tasks in sorted order. */
  function SortedTasks(rows: seq<Row>): seq<string> {
    Text.SortedSet(Text.Elements(TasksOf(rows)))
  }

  // ---- Cells ----------------------------------------------------------------------------------

  /** `task_meta`: the last task with an identifier wins. */
  function MetaOf(tasks: seq<TaskMeta>, id: string): Option<(string, string)> {
    if tasks == [] then None
    else
      var last := tasks[|tasks| - 1];
      if last.id == id then Some((last.stratum, last.language)) else MetaOf(tasks[..|tasks| - 1], id)
  }

  /** `cells.setdefault(meta, []).append(id)`. */
  function Place(cells: seq<Cell>, meta: (string, string), id: string): seq<Cell> {
    if cells == [] then [Cell(meta.0, meta.1, [id])]
    else if (cells[0].stratum, cells[0].language) == meta then [cells[0].(ids := cells[0].ids + [id])] + cells[1..]
    else [cells[0]] + Place(cells[1..], meta, id)
  }

  function Stratify(tasks: seq<TaskMeta>, ids: seq<string>): seq<Cell> {
    if ids == [] then []
    else
      var id, init := ids[|ids| - 1], Stratify(tasks, ids[..|ids| - 1]);
      match MetaOf(tasks, id)
      case None => init
      case Some(meta) => Place(init, meta, id)
  }

  // ---- Resamples ------------------------------------------------------------------------------

  /** `rng.choice(ids)`, whatever the generator returns. */
  function Choice(ids: seq<string>, number: nat): (id: string)
    requires ids != []
    ensures id in ids
  {
    ids[number % |ids|]
  }

  function DeltaOf(deltas: map<string, real>, id: string): real {
    if id in deltas then deltas[id] else 0.0
  }

  /** The first `n` draws from one cell, starting at position `base` of the stream. */
  function Draws(ids: seq<string>, deltas: map<string, real>, stream: nat -> nat, base: nat, n: nat): (r: seq<real>)
    requires ids != []
    ensures |r| == n
  {
    if n == 0 then []
    else Draws(ids, deltas, stream, base, n - 1) + [DeltaOf(deltas, Choice(ids, stream(base + n - 1)))]
  }

  ghost predicate NonemptyCells(cells: seq<Cell>) {
    forall i | 0 <= i < |cells| :: cells[i].ids != []
  }

  function Size(cells: seq<Cell>): nat {
    if cells == [] then 0 else Size(cells[..|cells| - 1]) + |cells[|cells| - 1].ids|
  }

  /** One resample: as many draws from each cell as the cell has tasks. */
  function Resample(cells: seq<Cell>, deltas: map<string, real>, stream: nat -> nat, base: nat): (r: seq<real>)
    requires NonemptyCells(cells)
    ensures |r| == Size(cells)
  {
    if cells == [] then []
    else
      var init, last := cells[..|cells| - 1], cells[|cells| - 1];
      Resample(init, deltas, stream, base) + Draws(last.ids, deltas, stream, base + Size(init), |last.ids|)
  }

  /** How many draws the first `n` resamples take. */
  function Drawn(cells: seq<Cell>, n: nat): nat {
    if n == 0 then 0 else Drawn(cells, n - 1) + Size(cells)
  }

  /** The means of the first `n` resamples. */
  function Means(cells: seq<Cell>, deltas: map<string, real>, stream: nat -> nat, n: nat): (r: seq<real>)
    requires NonemptyCells(cells) && Size(cells) > 0
    ensures |r| == n
  {
    if n == 0 then []
    else Means(cells, deltas, stream, n - 1) + [Mean(Resample(cells, deltas, stream, Drawn(cells, n - 1)))]
  }

  /** `samples[int(fraction * (len(samples) - 1))]`. */
  function Pick(samples: seq<real>, fraction: real): real
    requires samples != [] && 0.0 <= fraction <= 1.0
  {
    samples[Position(|samples|, fraction).Floor]
  }

  /** The report over given cells and deltas. */
  function Interval(cells: seq<Cell>, ids: seq<string>, deltas: map<string, real>, stream: nat -> nat, iterations: nat)
    : Report
    requires NonemptyCells(cells) && Size(cells) > 0 && iterations > 0 && ids != []
  {
    SortedAscending(Means(cells, deltas, stream, iterations));
    var samples := Sorted(Means(cells, deltas, stream, iterations));
    Report(Mean(Listed(ids, deltas)), Pick(samples, 0.025), Pick(samples, 0.975))
  }

  // ---- The bootstrap ----------------------------------------------------------------------------

  function Outcome(tasks: seq<TaskMeta>, full: seq<Row>, condition: seq<Row>, iterations: nat, stream: nat -> nat)
    : Result<Report, Fault>
    requires iterations > 0
  {
    var ids, deltas := SortedTasks(full), Deltas(full, condition);
    if Text.Elements(TasksOf(full)) != Text.Elements(TasksOf(condition)) then Failure(UnpairedTasks)
    else if exists id | id in ids :: MetaOf(tasks, id) == None then Failure(UnknownTask)
    else if ids == [] then Failure(DivisionByZero)
    else
      StratifyFacts(tasks, ids);
      Success(Interval(Stratify(tasks, ids), ids, deltas, stream, iterations))
  }

  lemma {:induction false} PlaceFacts(cells: seq<Cell>, meta: (string, string), id: string)
    requires NonemptyCells(cells)
    ensures NonemptyCells(Place(cells, meta, id))
    ensures Size(Place(cells, meta, id)) == Size(cells) + 1
  {
    if cells == [] {
      assert Size([Cell(meta.0, meta.1, [id])]) == 1 by { assert Size([]) == 0; }
    } else {
      SizeHead(cells);
      SizeHead(Place(cells, meta, id));
      if (cells[0].stratum, cells[0].language) != meta {
        PlaceFacts(cells[1..], meta, id);
        assert Place(cells, meta, id)[1..] == Place(cells[1..], meta, id);
      } else {
        assert Place(cells, meta, id)[1..] == cells[1..];
      }
    }
  }

  lemma {:induction false} SizeHead(cells: seq<Cell>)
    requires cells != []
    ensures Size(cells) == |cells[0].ids| + Size(cells[1..])
  {
    if |cells| > 1 {
      var init := cells[..|cells| - 1];
      SizeHead(init);
      assert init[1..] == cells[1..][..|cells| - 2];
    }
  }

  lemma {:induction false} StratifyFacts(tasks: seq<TaskMeta>, ids: seq<string>)
    requires forall id | id in ids :: MetaOf(tasks, id) != None
    ensures NonemptyCells(Stratify(tasks, ids)) && Size(Stratify(tasks, ids)) == |ids|
  {
    if ids != [] {
      var init := ids[..|ids| - 1];
      StratifyFacts(tasks, init);
      PlaceFacts(Stratify(tasks, init), MetaOf(tasks, ids[|ids| - 1]).value, ids[|ids| - 1]);
    }
  }

  lemma ResampleStep(cells: seq<Cell>, deltas: map<string, real>, stream: nat -> nat, start: nat, c: nat)
    requires c < |cells| && NonemptyCells(cells[..c + 1]) && NonemptyCells(cells[..c]) && cells[c].ids != []
    ensures Resample(cells[..c + 1], deltas, stream, start)
         == Resample(cells[..c], deltas, stream, start)
            + Draws(cells[c].ids, deltas, stream, start + Size(cells[..c]), |cells[c].ids|)
    ensures Size(cells[..c + 1]) == Size(cells[..c]) + |cells[c].ids|
  {
    assert cells[..c + 1][..c] == cells[..c];
  }

  lemma PrefixesNonempty(cells: seq<Cell>)
    requires NonemptyCells(cells)
    ensures forall c | 0 <= c <= |cells| :: NonemptyCells(cells[..c])
    ensures forall c | 0 <= c < |cells| :: cells[c].ids != []
  {
  }

  lemma NothingDrawn(deltas: map<string, real>, stream: nat -> nat, start: nat)
    ensures NonemptyCells([]) && Resample([], deltas, stream, start) == [] && Size([]) == 0
  {
  }

  method DrawResample(cells: seq<Cell>, deltas: map<string, real>, stream: nat -> nat, start: nat)
    returns (values: seq<real>, drawn: nat)
    requires NonemptyCells(cells)
    ensures values == Resample(cells, deltas, stream, start) && drawn == start + Size(cells)
  {
    values, drawn := [], start;
    PrefixesNonempty(cells);
    NothingDrawn(deltas, stream, start);
    for c := 0 to |cells|
      invariant NonemptyCells(cells[..c])
      invariant values == Resample(cells[..c], deltas, stream, start) && drawn == start + Size(cells[..c])
    {
      hide *;
      ResampleStep(cells, deltas, stream, start, c);
      var draws := DrawCell(cells[c].ids, deltas, stream, drawn);
      values, drawn := values + draws, drawn + |cells[c].ids|;
    }
    assert cells[..|cells|] == cells;
  }

  method DrawCell(ids: seq<string>, deltas: map<string, real>, stream: nat -> nat, base: nat) returns (draws: seq<real>)
    requires ids != []
    ensures draws == Draws(ids, deltas, stream, base, |ids|)
  {
    draws := [];
    for slot := 0 to |ids|
      invariant draws == Draws(ids, deltas, stream, base, slot)
    {
      draws := draws + [DeltaOf(deltas, Choice(ids, stream(base + slot)))];
    }
  }

  method StratifiedCells(tasks: seq<TaskMeta>, ids: seq<string>) returns (cells: Option<seq<Cell>>)
    ensures cells.None? <==> exists id | id in ids :: MetaOf(tasks, id) == None
    ensures cells.Some? ==> cells.value == Stratify(tasks, ids)
  {
    var built: seq<Cell> := [];
    for i := 0 to |ids|
      invariant forall id | id in ids[..i] :: MetaOf(tasks, id) != None
      invariant built == Stratify(tasks, ids[..i])
    {
      var meta := MetaOf(tasks, ids[i]);
      if meta.None? {
        assert ids[i] in ids;
        return None;
      }
      assert ids[..i + 1][..i] == ids[..i];
      built := Place(built, meta.value, ids[i]);
    }
    assert ids[..|ids|] == ids;
    return Some(built);
  }

  /** `_paired_stratified_bootstrap`. */
  method PairedStratifiedBootstrap(tasks: seq<TaskMeta>, full: seq<Row>, condition: seq<Row>, iterations: nat,
                                   stream: nat -> nat)
    returns (r: Result<Report, Fault>)
    requires iterations > 0
    ensures r == Outcome(tasks, full, condition, iterations, stream)
  {
    hide Interval, Stratify, Deltas, Size, NonemptyCells, MetaOf;
    var deltas := PairedDeltas(full, condition);
    if deltas.None? {
      return Failure(UnpairedTasks);
    }
    var ids := Text.SortedSet(deltas.value.Keys);
    var cells := StratifiedCells(tasks, ids);
    if cells.None? {
      return Failure(UnknownTask);
    }
    if ids == [] {
      return Failure(DivisionByZero);
    }
    StratifyFacts(tasks, ids);
    var report := IntervalOf(cells.value, ids, deltas.value, stream, iterations);
    return Success(report);
  }

  method PairedDeltas(full: seq<Row>, condition: seq<Row>) returns (deltas: Option<map<string, real>>)
    ensures deltas.None? <==> Text.Elements(TasksOf(full)) != Text.Elements(TasksOf(condition))
    ensures deltas.Some? ==> deltas.value == Deltas(full, condition)
    ensures deltas.Some? ==> deltas.value.Keys == Text.Elements(TasksOf(full))
  {
    hide AreTaskValues, ValueOf;
    var fullValues := TaskValues(full);
    var conditionValues := TaskValues(condition);
    ValuesAre(full, fullValues);
    ValuesAre(condition, conditionValues);
    if fullValues.Keys != conditionValues.Keys {
      return None;
    }
    return Some(map t | t in fullValues :: conditionValues[t] - fullValues[t]);
  }

  method IntervalOf(cells: seq<Cell>, ids: seq<string>, deltas: map<string, real>, stream: nat -> nat, iterations: nat)
    returns (report: Report)
    requires NonemptyCells(cells) && Size(cells) > 0 && iterations > 0 && ids != []
    ensures report == Interval(cells, ids, deltas, stream, iterations)
  {
    hide Means, Mean, Pick, Size, NonemptyCells, Listed;
    var observed := Mean(Listed(ids, deltas));
    var samples := ResampleMeans(cells, deltas, stream, iterations);
    SortedAscending(samples);
    samples := Sorted(samples);
    report := Report(observed, Pick(samples, 0.025), Pick(samples, 0.975));
  }

  method ResampleMeans(cells: seq<Cell>, deltas: map<string, real>, stream: nat -> nat, iterations: nat)
    returns (samples: seq<real>)
    requires NonemptyCells(cells) && Size(cells) > 0
    ensures samples == Means(cells, deltas, stream, iterations)
  {
    hide Mean, Resample, Size;
    samples := [];
    var drawn := 0;
    for i := 0 to iterations
      invariant samples == Means(cells, deltas, stream, i) && drawn == Drawn(cells, i)
    {
      var values;
      values, drawn := DrawResample(cells, deltas, stream, drawn);
      samples := samples + [Mean(values)];
    }
  }

  lemma ValuesAre(rows: seq<Row>, values: map<string, real>)
    requires AreTaskValues(rows, values)
    ensures values.Keys == Text.Elements(TasksOf(rows))
    ensures forall t | t in values :: values[t] == ValueOf(rows, t)
  {
    forall t | t in values
      ensures values[t] == ValueOf(rows, t)
    {
      TaskHasRows(rows, t);
    }
  }

  // ---- What the interval promises -----------------------------------------------------------------

  /** All task deltas lie between `low` and `high`. */
  ghost predicate DeltasWithin(full: seq<Row>, condition: seq<Row>, low: real, high: real) {
    forall t | t in TasksOf(full) :: low <= ValueOf(condition, t) - ValueOf(full, t) <= high
  }

  ghost predicate CellsWithin(cells: seq<Cell>, deltas: map<string, real>, low: real, high: real) {
    forall i, id | 0 <= i < |cells| && id in cells[i].ids :: low <= DeltaOf(deltas, id) <= high
  }

  lemma {:induction false} PlaceWithin(cells: seq<Cell>, meta: (string, string), id: string, deltas: map<string, real>,
                                       low: real, high: real)
    requires CellsWithin(cells, deltas, low, high) && low <= DeltaOf(deltas, id) <= high
    ensures CellsWithin(Place(cells, meta, id), deltas, low, high)
  {
    if cells != [] && (cells[0].stratum, cells[0].language) != meta {
      PlaceWithin(cells[1..], meta, id, deltas, low, high);
      var placed := Place(cells, meta, id);
      forall i, x | 0 <= i < |placed| && x in placed[i].ids
        ensures low <= DeltaOf(deltas, x) <= high
      {
        if i > 0 {
          assert placed[i] == Place(cells[1..], meta, id)[i - 1];
        }
      }
    }
  }

  lemma {:induction false} StratifyWithin(tasks: seq<TaskMeta>, ids: seq<string>, deltas: map<string, real>,
                                          low: real, high: real)
    requires forall id | id in ids :: low <= DeltaOf(deltas, id) <= high
    ensures CellsWithin(Stratify(tasks, ids), deltas, low, high)
  {
    if ids != [] {
      var id, init := ids[|ids| - 1], ids[..|ids| - 1];
      StratifyWithin(tasks, init, deltas, low, high);
      if MetaOf(tasks, id).Some? {
        PlaceWithin(Stratify(tasks, init), MetaOf(tasks, id).value, id, deltas, low, high);
      }
    }
  }

  lemma {:induction false} DrawsWithin(
      ids: seq<string>, deltas: map<string, real>, stream: nat -> nat, base: nat, n: nat, low: real, high: real)
    requires ids != [] && forall id | id in ids :: low <= DeltaOf(deltas, id) <= high
    ensures Within(Draws(ids, deltas, stream, base, n), low, high)
  {
    if n > 0 {
      DrawsWithin(ids, deltas, stream, base, n - 1, low, high);
    }
  }

  lemma {:induction false} ResampleWithin(cells: seq<Cell>, deltas: map<string, real>, stream: nat -> nat, base: nat,
                                          low: real, high: real)
    requires NonemptyCells(cells) && CellsWithin(cells, deltas, low, high)
    ensures Within(Resample(cells, deltas, stream, base), low, high)
  {
    if cells != [] {
      var init, last := cells[..|cells| - 1], cells[|cells| - 1];
      ResampleWithin(init, deltas, stream, base, low, high);
      DrawsWithin(last.ids, deltas, stream, base + Size(init), |last.ids|, low, high);
    }
  }

  lemma {:induction false} MeansWithin(cells: seq<Cell>, deltas: map<string, real>, stream: nat -> nat, n: nat,
                                       low: real, high: real)
    requires NonemptyCells(cells) && Size(cells) > 0 && CellsWithin(cells, deltas, low, high)
    ensures Within(Means(cells, deltas, stream, n), low, high)
  {
    if n > 0 {
      MeansWithin(cells, deltas, stream, n - 1, low, high);
      OneMeanWithin(cells, deltas, stream, Drawn(cells, n - 1), low, high);
      hide CellsWithin, NonemptyCells, Resample, Mean, Size, Drawn;
    }
  }

  lemma OneMeanWithin(cells: seq<Cell>, deltas: map<string, real>, stream: nat -> nat, base: nat, low: real, high: real)
    requires NonemptyCells(cells) && Size(cells) > 0 && CellsWithin(cells, deltas, low, high)
    ensures low <= Mean(Resample(cells, deltas, stream, base)) <= high
  {
    ResampleWithin(cells, deltas, stream, base, low, high);
    MeanWithin(Resample(cells, deltas, stream, base), low, high);
  }

  /** Of an ascending sample, the 2.5% pick is at most the 97.5% pick. */
  lemma PicksOrdered(samples: seq<real>, low: real, high: real)
    requires samples != [] && Ascending(samples) && Within(samples, low, high)
    ensures low <= Pick(samples, 0.025) <= Pick(samples, 0.975) <= high
  {
    PositionMonotone(|samples|, 0.025, 0.975);
    var i, j := Position(|samples|, 0.025).Floor, Position(|samples|, 0.975).Floor;
    assert 0 <= i <= j < |samples|;
  }

  lemma {:induction false} ListedWithin(ids: seq<string>, deltas: map<string, real>, low: real, high: real)
    requires forall id | id in ids :: low <= DeltaOf(deltas, id) <= high
    ensures Within(Listed(ids, deltas), low, high)
  {
    if ids != [] {
      assert forall id | id in ids[..|ids| - 1] :: id in ids;
      assert low <= DeltaOf(deltas, ids[|ids| - 1]) <= high;
      ListedWithin(ids[..|ids| - 1], deltas, low, high);
    }
  }

  /** Whatever the generator returns, the interval is ordered, and it and the observed
      delta lie between any bounds of the task deltas. */
  lemma IntervalWithinDeltas(tasks: seq<TaskMeta>, full: seq<Row>, condition: seq<Row>, iterations: nat,
                             stream: nat -> nat, low: real, high: real)
    requires iterations > 0 && DeltasWithin(full, condition, low, high)
    requires Outcome(tasks, full, condition, iterations, stream).Success?
    ensures var r := Outcome(tasks, full, condition, iterations, stream).value;
      low <= r.ciLow <= r.ciHigh <= high && low <= r.delta <= high
  {
    var ids, deltas := SortedTasks(full), Deltas(full, condition);
    var cells := Stratify(tasks, ids);
    StratifyFacts(tasks, ids);
    assert forall id | id in ids :: low <= DeltaOf(deltas, id) <= high;
    StratifyWithin(tasks, ids, deltas, low, high);
    MeansWithin(cells, deltas, stream, iterations, low, high);
    var means := Means(cells, deltas, stream, iterations);
    SortedWithin(means, low, high);
    SortedAscending(means);
    PicksOrdered(Sorted(means), low, high);
    ListedWithin(ids, deltas, low, high);
    MeanWithin(Listed(ids, deltas), low, high);
  }

  // ---- Stratification ------------------------------------------------------------------------------

  /** Every task sits in the cell of its own stratum and language. */
  ghost predicate Keyed(tasks: seq<TaskMeta>, cells: seq<Cell>) {
    forall i, id | 0 <= i < |cells| && id in cells[i].ids ::
      MetaOf(tasks, id) == Some((cells[i].stratum, cells[i].language))
  }

  lemma {:induction false} PlaceKeyed(tasks: seq<TaskMeta>, cells: seq<Cell>, meta: (string, string), id: string)
    requires Keyed(tasks, cells) && MetaOf(tasks, id) == Some(meta)
    ensures Keyed(tasks, Place(cells, meta, id))
  {
    hide MetaOf;
    if cells != [] && (cells[0].stratum, cells[0].language) != meta {
      PlaceKeyed(tasks, cells[1..], meta, id);
      var placed := Place(cells, meta, id);
      assert forall i | 0 < i < |placed| :: placed[i] == Place(cells[1..], meta, id)[i - 1];
    }
  }

  lemma {:induction false} StratifyKeyed(tasks: seq<TaskMeta>, ids: seq<string>)
    ensures Keyed(tasks, Stratify(tasks, ids))
  {
    if ids != [] {
      var id, init := ids[|ids| - 1], ids[..|ids| - 1];
      StratifyKeyed(tasks, init);
      if MetaOf(tasks, id).Some? {
        PlaceKeyed(tasks, Stratify(tasks, init), MetaOf(tasks, id).value, id);
      }
    }
  }

  function CellTotal(cells: seq<Cell>, deltas: map<string, real>): real {
    if cells == [] then 0.0
    else CellTotal(cells[..|cells| - 1], deltas) + Sum(Listed(cells[|cells| - 1].ids, deltas))
  }

  lemma {:induction false} CellTotalHead(cells: seq<Cell>, deltas: map<string, real>)
    requires cells != []
    ensures CellTotal(cells, deltas) == Sum(Listed(cells[0].ids, deltas)) + CellTotal(cells[1..], deltas)
  {
    hide Sum, Listed;
    if |cells| > 1 {
      var init := cells[..|cells| - 1];
      CellTotalHead(init, deltas);
      assert init[1..] == cells[1..][..|cells| - 2];
    }
  }

  lemma ListedSnoc(ids: seq<string>, id: string, deltas: map<string, real>)
    ensures Sum(Listed(ids + [id], deltas)) == Sum(Listed(ids, deltas)) + DeltaOf(deltas, id)
  {
    assert (ids + [id])[..|ids|] == ids;
    SumSnoc(Listed(ids, deltas), DeltaOf(deltas, id));
  }

  lemma {:induction false} PlaceTotal(cells: seq<Cell>, meta: (string, string), id: string, deltas: map<string, real>)
    ensures CellTotal(Place(cells, meta, id), deltas) == CellTotal(cells, deltas) + DeltaOf(deltas, id)
  {
    var placed := Place(cells, meta, id);
    CellTotalHead(placed, deltas);
    hide Sum, Listed, DeltaOf, CellTotal;
    if cells == [] {
      ListedSnoc([], id, deltas);
      assert [] + [id] == [id];
      EmptyTotal(deltas);
    } else {
      CellTotalHead(cells, deltas);
      if (cells[0].stratum, cells[0].language) == meta {
        ListedSnoc(cells[0].ids, id, deltas);
        assert placed[1..] == cells[1..];
      } else {
        PlaceTotal(cells[1..], meta, id, deltas);
        assert placed[1..] == Place(cells[1..], meta, id);
      }
    }
  }

  lemma EmptyTotal(deltas: map<string, real>)
    ensures CellTotal([], deltas) == 0.0 == Sum(Listed([], deltas))
  {
  }

  /** Stratifying loses and duplicates no task. */
  lemma {:induction false} StratifyTotal(tasks: seq<TaskMeta>, ids: seq<string>, deltas: map<string, real>)
    requires forall id | id in ids :: MetaOf(tasks, id) != None
    ensures CellTotal(Stratify(tasks, ids), deltas) == Sum(Listed(ids, deltas))
  {
    hide Sum, Listed, DeltaOf, CellTotal, MetaOf;
    if ids == [] {
      EmptyTotal(deltas);
    } else {
      var id, init := ids[|ids| - 1], ids[..|ids| - 1];
      assert ids == init + [id];
      StratifyTotal(tasks, init, deltas);
      PlaceTotal(Stratify(tasks, init), MetaOf(tasks, id).value, id, deltas);
      ListedSnoc(init, id, deltas);
    }
  }

  /** Tasks of one stratum and language moved by the same amount. */
  ghost predicate EqualInStrata(tasks: seq<TaskMeta>, deltas: map<string, real>) {
    forall s, t | s in deltas && t in deltas && MetaOf(tasks, s) == MetaOf(tasks, t) :: deltas[s] == deltas[t]
  }

  lemma SameSum(xs: seq<real>, ys: seq<real>, d: real)
    requires Within(xs, d, d) && Within(ys, d, d) && |xs| == |ys|
    ensures Sum(xs) == Sum(ys)
  {
    SumWithin(xs, d, d);
    SumWithin(ys, d, d);
  }

  lemma CellConstant(tasks: seq<TaskMeta>, cells: seq<Cell>, deltas: map<string, real>, i: nat)
    requires i < |cells| && cells[i].ids != [] && Keyed(tasks, cells) && EqualInStrata(tasks, deltas)
    requires forall id | id in cells[i].ids :: id in deltas
    ensures forall id | id in cells[i].ids :: DeltaOf(deltas, id) == DeltaOf(deltas, cells[i].ids[0])
  {
    hide MetaOf;
    assert cells[i].ids[0] in cells[i].ids;
  }

  /** Draws from a cell whose tasks share one delta add up to the cell's own total. */
  lemma CellDrawTotal(ids: seq<string>, deltas: map<string, real>, stream: nat -> nat, base: nat, d: real)
    requires ids != [] && forall id | id in ids :: DeltaOf(deltas, id) == d
    ensures Sum(Draws(ids, deltas, stream, base, |ids|)) == Sum(Listed(ids, deltas))
  {
    DrawsWithin(ids, deltas, stream, base, |ids|, d, d);
    ListedWithin(ids, deltas, d, d);
    hide Sum, Draws, Listed, Within;
    SameSum(Draws(ids, deltas, stream, base, |ids|), Listed(ids, deltas), d);
  }

  lemma {:induction false} ResampleTotal(tasks: seq<TaskMeta>, cells: seq<Cell>, deltas: map<string, real>,
                                         stream: nat -> nat, base: nat)
    requires NonemptyCells(cells) && Keyed(tasks, cells) && EqualInStrata(tasks, deltas)
    requires forall i, id | 0 <= i < |cells| && id in cells[i].ids :: id in deltas
    ensures Sum(Resample(cells, deltas, stream, base)) == CellTotal(cells, deltas)
  {
    hide EqualInStrata, MetaOf, Draws, Listed, DeltaOf;
    if cells != [] {
      var init, last := cells[..|cells| - 1], cells[|cells| - 1];
      ResampleTotal(tasks, init, deltas, stream, base);
      CellConstant(tasks, cells, deltas, |cells| - 1);
      CellDrawTotal(last.ids, deltas, stream, base + Size(init), DeltaOf(deltas, last.ids[0]));
      hide Sum;
      SumAppend(Resample(init, deltas, stream, base), Draws(last.ids, deltas, stream, base + Size(init), |last.ids|));
    } else {
      SumEmpty();
    }
  }

  lemma NoMeans(cells: seq<Cell>, deltas: map<string, real>, stream: nat -> nat, mean: real)
    requires NonemptyCells(cells) && Size(cells) > 0
    ensures Within(Means(cells, deltas, stream, 0), mean, mean)
  {
  }

  lemma MeansNext(cells: seq<Cell>, deltas: map<string, real>, stream: nat -> nat, n: nat, mean: real)
    requires NonemptyCells(cells) && Size(cells) > 0
    requires Within(Means(cells, deltas, stream, n), mean, mean)
    requires Sum(Resample(cells, deltas, stream, Drawn(cells, n))) == CellTotal(cells, deltas)
    requires mean == CellTotal(cells, deltas) / Size(cells) as real
    ensures Within(Means(cells, deltas, stream, n + 1), mean, mean)
  {
    hide NonemptyCells, Size, CellTotal, Sum, Resample, Drawn;
  }

  lemma {:induction false} MeansConstant(tasks: seq<TaskMeta>, cells: seq<Cell>, deltas: map<string, real>,
                                         stream: nat -> nat, n: nat, mean: real)
    requires NonemptyCells(cells) && Size(cells) > 0 && Keyed(tasks, cells) && EqualInStrata(tasks, deltas)
    requires forall i, id | 0 <= i < |cells| && id in cells[i].ids :: id in deltas
    requires mean == CellTotal(cells, deltas) / Size(cells) as real
    ensures Within(Means(cells, deltas, stream, n), mean, mean)
  {
    hide *;
    if n == 0 {
      NoMeans(cells, deltas, stream, mean);
    } else {
      MeansConstant(tasks, cells, deltas, stream, n - 1, mean);
      ResampleTotal(tasks, cells, deltas, stream, Drawn(cells, n - 1));
      MeansNext(cells, deltas, stream, n - 1, mean);
    }
  }

  lemma {:induction false} StratifyMembers(tasks: seq<TaskMeta>, ids: seq<string>, deltas: map<string, real>)
    requires forall id | id in ids :: id in deltas
    ensures forall i, id | 0 <= i < |Stratify(tasks, ids)| && id in Stratify(tasks, ids)[i].ids :: id in deltas
  {
    if ids != [] {
      var id, init := ids[|ids| - 1], ids[..|ids| - 1];
      StratifyMembers(tasks, init, deltas);
      if MetaOf(tasks, id).Some? {
        PlaceMembers(Stratify(tasks, init), MetaOf(tasks, id).value, id, deltas);
      }
    }
  }

  lemma {:induction false} PlaceMembers(cells: seq<Cell>, meta: (string, string), id: string, deltas: map<string, real>)
    requires forall i, x | 0 <= i < |cells| && x in cells[i].ids :: x in deltas
    requires id in deltas
    ensures forall i, x | 0 <= i < |Place(cells, meta, id)| && x in Place(cells, meta, id)[i].ids :: x in deltas
  {
    if cells != [] && (cells[0].stratum, cells[0].language) != meta {
      PlaceMembers(cells[1..], meta, id, deltas);
      var placed := Place(cells, meta, id);
      assert forall i | 0 < i < |placed| :: placed[i] == Place(cells[1..], meta, id)[i - 1];
    }
  }

  /** The bootstrap is stratified: when tasks of one stratum and language all moved by the
      same amount, every resample reproduces the observed delta, so the interval is a
      point, whatever the generator returns. */
  lemma StratifiedIntervalIsExact(tasks: seq<TaskMeta>, full: seq<Row>, condition: seq<Row>, iterations: nat,
                                  stream: nat -> nat)
    requires iterations > 0 && EqualInStrata(tasks, Deltas(full, condition))
    requires Outcome(tasks, full, condition, iterations, stream).Success?
    ensures var r := Outcome(tasks, full, condition, iterations, stream).value;
      r.ciLow == r.delta == r.ciHigh
  {
    var ids, deltas := SortedTasks(full), Deltas(full, condition);
    assert forall id | id in ids :: id in deltas;
    StratifyFacts(tasks, ids);
    hide Deltas, EqualInStrata, NonemptyCells, Interval, Stratify, MetaOf;
    IntervalIsExact(tasks, ids, deltas, stream, iterations);
  }

  lemma IntervalIsExact(tasks: seq<TaskMeta>, ids: seq<string>, deltas: map<string, real>, stream: nat -> nat,
                        iterations: nat)
    requires iterations > 0 && ids != [] && EqualInStrata(tasks, deltas)
    requires forall id | id in ids :: id in deltas && MetaOf(tasks, id) != None
    requires NonemptyCells(Stratify(tasks, ids)) && Size(Stratify(tasks, ids)) == |ids|
    ensures var r := Interval(Stratify(tasks, ids), ids, deltas, stream, iterations); r.ciLow == r.delta == r.ciHigh
  {
    var cells := Stratify(tasks, ids);
    var mean, means := Mean(Listed(ids, deltas)), Means(cells, deltas, stream, iterations);
    hide NonemptyCells, EqualInStrata, Stratify, Means, MetaOf, Pick, Within;
    StratifyKeyed(tasks, ids);
    StratifyMembers(tasks, ids, deltas);
    StratifyTotal(tasks, ids, deltas);
    MeansConstant(tasks, cells, deltas, stream, iterations, mean);
    SortedWithin(means, mean, mean);
    SortedAscending(means);
    PicksOrdered(Sorted(means), mean, mean);
  }

  // ---- Balanced designs -----------------------------------------------------------------------------

  function ValueMap(rows: seq<Row>): map<string, real> {
    map t | t in TasksOf(rows) :: ValueOf(rows, t)
  }

  /** In a balanced design a condition's pass rate is the mean of its task values. */
  lemma RateIsMeanOfValues(corpus: Corpus, rows: seq<Row>, condition: string, ids: seq<string>)
    requires IdentityOk(corpus, rows) && condition in corpus.conditions
    requires ids != [] && Distinct(ids) && forall t :: t in ids <==> t in TaskIds(corpus)
    ensures OfCondition(rows, condition) != []
    ensures PassRate(OfCondition(rows, condition)) == Mean(Listed(ids, ValueMap(OfCondition(rows, condition))))
  {
    var kept := OfCondition(rows, condition);
    var values := ValueMap(kept);
    forall t
      ensures |OfTask(kept, t)| == (if t in ids then 3 else 0) && (t in TasksOf(kept) <==> t in ids)
    {
      ThreePerTask(corpus, rows, condition, t);
      TaskHasRows(kept, t);
    }
    assert AreTaskValues(kept, values) by {
      hide IdentityOk, OfCondition, PassRate;
    }
    forall row | row in kept
      ensures row.task in ids
    {
      TaskOfRow(kept, row);
    }
    hide IdentityOk, OfCondition, AreTaskValues, ValueMap, PassRate, Mean, Listed;
    RateOfGroups(kept, ids, values);
  }

  lemma RateOfGroups(kept: seq<Row>, ids: seq<string>, values: map<string, real>)
    requires ids != [] && Distinct(ids) && AreTaskValues(kept, values)
    requires forall t | t in ids :: t in values && |OfTask(kept, t)| == 3
    requires forall row | row in kept :: row.task in ids
    ensures kept != [] && PassRate(kept) == Mean(Listed(ids, values))
  {
    hide AreTaskValues, OfTask, Distinct, PassValues, Sum, Listed;
    TotalsConserve(kept, ids);
    CountsOfSize(kept, ids, 3);
    TotalsOfMeans(kept, ids, values, 3);
    hide *;
    MeanParts(PassValues(kept), Listed(ids, values), kept);
  }

  lemma MeanParts(xs: seq<real>, ys: seq<real>, kept: seq<Row>)
    requires xs == PassValues(kept) && ys != [] && |xs| == 3 * |ys| && Sum(xs) == 3.0 * Sum(ys)
    ensures kept != [] && PassRate(kept) == Mean(ys)
  {
    hide Sum, PassValues;
    assert |xs| as real == 3.0 * |ys| as real;
    Cancel(Sum(ys), |ys| as real);
  }

  lemma {:induction false} TaskOfRow(rows: seq<Row>, row: Row)
    requires row in rows
    ensures row.task in TasksOf(rows)
  {
    if row != rows[|rows| - 1] {
      assert row in rows[..|rows| - 1];
      TaskOfRow(rows[..|rows| - 1], row);
    }
  }

  lemma Cancel(total: real, n: real)
    requires n > 0.0
    ensures (3.0 * total) / (3.0 * n) == total / n
  {
  }

  lemma {:induction false} ListedDifference(ids: seq<string>, full: seq<Row>, condition: seq<Row>)
    requires forall t | t in ids :: t in TasksOf(full) && t in TasksOf(condition)
    ensures Sum(Listed(ids, Deltas(full, condition)))
         == Sum(Listed(ids, ValueMap(condition))) - Sum(Listed(ids, ValueMap(full)))
  {
    hide ValueOf;
    if ids != [] {
      var init, last := ids[..|ids| - 1], ids[|ids| - 1];
      assert ids == init + [last];
      assert last in ids && forall t | t in init :: t in ids;
      ListedDifference(init, full, condition);
      ListedSnoc(init, last, Deltas(full, condition));
      ListedSnoc(init, last, ValueMap(condition));
      ListedSnoc(init, last, ValueMap(full));
      hide Sum, Listed;
    }
  }

  lemma {:induction false} MetaKnown(tasks: seq<TaskMeta>, id: string)
    ensures MetaOf(tasks, id) != None <==> exists m | m in tasks :: m.id == id
  {
    if tasks != [] {
      var init, last := tasks[..|tasks| - 1], tasks[|tasks| - 1];
      MetaKnown(init, id);
      assert last in tasks;
      assert forall m | m in init :: m in tasks;
      assert forall m | m in tasks :: m == last || m in init;
    }
  }

  /** Once the identity check has passed, the bootstrap cannot fail, and its mean of task
      deltas, computed task by task, is the difference of the two overall pass rates. */
  lemma DeltaIsRateDifference(corpus: Corpus, rows: seq<Row>, condition: string, iterations: nat, stream: nat -> nat)
    requires IdentityOk(corpus, rows) && iterations > 0 && corpus.tasks != []
    requires "FULL" in corpus.conditions && condition in corpus.conditions
    ensures var full, kept := OfCondition(rows, "FULL"), OfCondition(rows, condition);
      var r := Outcome(corpus.tasks, full, kept, iterations, stream);
      && full != [] && kept != [] && r.Success?
      && r.value.delta == PassRate(kept) - PassRate(full)
  {
    var full, kept := OfCondition(rows, "FULL"), OfCondition(rows, condition);
    var ids := SortedTasks(full);
    ConditionTasks(corpus, rows, "FULL");
    ConditionTasks(corpus, rows, condition);
    assert Text.Elements(TasksOf(full)) == TaskIds(corpus) == Text.Elements(TasksOf(kept));
    assert corpus.tasks[0].id in TaskIds(corpus);
    assert ids != [] && Distinct(ids) && forall t :: t in ids <==> t in TaskIds(corpus);
    assert forall t | t in ids :: t in TasksOf(full) && t in TasksOf(kept);
    forall id | id in ids
      ensures MetaOf(corpus.tasks, id) != None
    {
      assert id in TaskIds(corpus);
      MetaKnown(corpus.tasks, id);
    }
    hide IdentityOk, OfCondition, Deltas, ValueMap, Sum, Listed, MetaOf, TaskIds, TasksOf, Stratify, PassRate, Interval;
    RateIsMeanOfValues(corpus, rows, "FULL", ids);
    RateIsMeanOfValues(corpus, rows, condition, ids);
    PairedDelta(corpus.tasks, full, kept, ids, iterations, stream);
  }

  lemma PairedDelta(tasks: seq<TaskMeta>, full: seq<Row>, kept: seq<Row>, ids: seq<string>, iterations: nat,
                    stream: nat -> nat)
    requires iterations > 0 && ids == SortedTasks(full) && ids != []
    requires Text.Elements(TasksOf(full)) == Text.Elements(TasksOf(kept))
    requires forall id | id in ids :: MetaOf(tasks, id) != None && id in TasksOf(full) && id in TasksOf(kept)
    ensures var r := Outcome(tasks, full, kept, iterations, stream);
      r.Success? && r.value.delta == Mean(Listed(ids, ValueMap(kept))) - Mean(Listed(ids, ValueMap(full)))
  {
    hide Sum, Listed, Deltas, ValueMap, MetaOf, Stratify, SortedTasks, TasksOf, Size, Means, Pick;
    StratifyFacts(tasks, ids);
    ListedDifference(ids, full, kept);
    Difference(Sum(Listed(ids, ValueMap(kept))), Sum(Listed(ids, ValueMap(full))), |ids| as real);
  }

  lemma ConditionTasks(corpus: Corpus, rows: seq<Row>, condition: string)
    requires IdentityOk(corpus, rows) && condition in corpus.conditions
    ensures forall t :: t in TasksOf(OfCondition(rows, condition)) <==> t in TaskIds(corpus)
  {
    forall t
      ensures t in TasksOf(OfCondition(rows, condition)) <==> t in TaskIds(corpus)
    {
      ThreePerTask(corpus, rows, condition, t);
      TaskHasRows(OfCondition(rows, condition), t);
    }
  }

  lemma Difference(a: real, b: real, n: real)
    requires n > 0.0
    ensures (a - b) / n == a / n - b / n
  {
  }
}
